/** Structured evidence lookup (app/findings/index.py). */
module EvidenceIndexing {
  import opened Contracts
  import opened EvidenceContracts
  import opened Queries
  import opened TextOps

  /** How a lookup argument is brought into key form. */
  function LookupKey(ops: TextOps, t: Table, argument: string): string {
    match t
    case ByRecord => argument
    case ByIndicator => ops.Normalize(argument)
    case _ => ops.Fold(argument)
  }

  function Filing(keys: seq<string>, key: string): nat {
    if keys == [] then 0 else Filing(keys[..|keys| - 1], key) + if keys[|keys| - 1] == key then 1 else 0
  }

  function Copies<T>(x: T, n: nat): seq<T> {
    if n == 0 then [] else Copies(x, n - 1) + [x]
  }

  /** The items filed under `key`, in extraction order, an item once for each of its keys. */
  function Hits(ops: TextOps, t: Table, evidence: seq<Evidence>, key: string): seq<Evidence> {
    if evidence == [] then []
    else
      var last := evidence[|evidence| - 1];
      Hits(ops, t, evidence[..|evidence| - 1], key) + Copies(last, Filing(KeysOf(ops, t, last), key))
  }

  function Having(ops: TextOps, t: Table, evidence: seq<Evidence>, key: string): seq<Evidence> {
    Select(ops, evidence, FiledUnder(t, key))
  }

  /** The telemetry items that observe an indicator; none for a blank one. */
  function Occurrences(ops: TextOps, evidence: seq<Evidence>, indicator: string): seq<Evidence> {
    if ops.Normalize(indicator) == "" then [] else Select(ops, evidence, ObservedAs(ops.Normalize(indicator)))
  }

  /** The distinct raw record ids, in order of first occurrence. */
  function DistinctRecordIds(items: seq<Evidence>): seq<string> {
    if items == [] then []
    else
      var before := DistinctRecordIds(items[..|items| - 1]);
      var recordId := TextAt(items[|items| - 1].content, RecordId);
      if recordId != "" && recordId !in before then before + [recordId] else before
  }

  lemma {:induction false} HitsBelong(ops: TextOps, t: Table, evidence: seq<Evidence>, key: string, e: Evidence)
    ensures e in Hits(ops, t, evidence, key) <==> e in evidence && key in KeysOf(ops, t, e)
  {
    hide KeysOf;
    if evidence != [] {
      var before, last := evidence[..|evidence| - 1], evidence[|evidence| - 1];
      HitsBelong(ops, t, before, key, e);
      CopiesOf(last, Filing(KeysOf(ops, t, last), key), e);
      FilingCounts(KeysOf(ops, t, last), key);
      assert evidence == before + [last];
    }
  }

  lemma {:induction false} CopiesOf<T>(x: T, n: nat, y: T)
    ensures |Copies(x, n)| == n && (y in Copies(x, n) <==> n > 0 && y == x)
  {
    if n > 0 { CopiesOf(x, n - 1, y); }
  }

  lemma {:induction false} FilingCounts(keys: seq<string>, key: string)
    ensures Filing(keys, key) > 0 <==> key in keys
  {
    if keys != [] {
      FilingCounts(keys[..|keys| - 1], key);
      assert keys == keys[..|keys| - 1] + [keys[|keys| - 1]];
    }
  }

  lemma {:induction false} HitsAtLeast(ops: TextOps, t: Table, evidence: seq<Evidence>, key: string)
    ensures |Hits(ops, t, evidence, key)| >= |Having(ops, t, evidence, key)|
    ensures |Hits(ops, t, evidence, key)| == |Having(ops, t, evidence, key)|
            <==> forall e :: e in evidence ==> Filing(KeysOf(ops, t, e), key) <= 1
  {
    hide KeysOf;
    if evidence != [] {
      var before, last := evidence[..|evidence| - 1], evidence[|evidence| - 1];
      HitsAtLeast(ops, t, before, key);
      CopiesOf(last, Filing(KeysOf(ops, t, last), key), last);
      FilingCounts(KeysOf(ops, t, last), key);
      assert evidence == before + [last];
    }
  }

  /** A lookup lists exactly the items having the key, in extraction order and once each, if and only if
      no item is filed twice under that key: only an item whose two path fields agree is. */
  lemma {:induction false} LookupIsFilterIff(ops: TextOps, t: Table, evidence: seq<Evidence>, key: string)
    ensures Hits(ops, t, evidence, key) == Having(ops, t, evidence, key)
            <==> forall e :: e in evidence ==> Filing(KeysOf(ops, t, e), key) <= 1
    ensures !t.ByPath? ==> Hits(ops, t, evidence, key) == Having(ops, t, evidence, key)
  {
    forall e ensures !t.ByPath? ==> Filing(KeysOf(ops, t, e), key) <= 1 {
      FilingAtMost(KeysOf(ops, t, e), key);
    }
    HitsAtLeast(ops, t, evidence, key);
    if forall e :: e in evidence ==> Filing(KeysOf(ops, t, e), key) <= 1 {
      SingleFiling(ops, t, evidence, key);
    }
  }

  /** A hand-made item whose two path fields agree: the path table lists it twice. */
  lemma FiledTwice(ops: TextOps)
    ensures var content := map[Path := Text("a"), FilePath := Text("a")];
            var e := Evidence("EV-000001", FileActivity, content, SourceReference("", "", "", "", ""), [TAG_TELEMETRY]);
            && Hits(ops, ByPath, [e], ops.Fold("a")) == [e, e]
            && Having(ops, ByPath, [e], ops.Fold("a")) == [e]
  {
    var content := map[Path := Text("a"), FilePath := Text("a")];
    var e := Evidence("EV-000001", FileActivity, content, SourceReference("", "", "", "", ""), [TAG_TELEMETRY]);
    var key := ops.Fold("a");
    assert KeysOf(ops, ByPath, e) == [key, key] && [key, key][..1] == [key] && [key][..0] == [];
    assert Filing([key], key) == 1 && Filing([key, key], key) == 2;
    assert Copies(e, 0) == [] && Copies(e, 1) == [e] && Copies(e, 2) == [e, e];
    assert [e][..0] == [] && Hits(ops, ByPath, [], key) == [] && Select(ops, [], FiledUnder(ByPath, key)) == [];
  }

  lemma {:induction false} FilingAtMost(keys: seq<string>, key: string)
    ensures Filing(keys, key) <= |keys|
  {
    if keys != [] { FilingAtMost(keys[..|keys| - 1], key); }
  }

  lemma {:induction false} SingleFiling(ops: TextOps, t: Table, evidence: seq<Evidence>, key: string)
    requires forall e :: e in evidence ==> Filing(KeysOf(ops, t, e), key) <= 1
    ensures Hits(ops, t, evidence, key) == Having(ops, t, evidence, key)
  {
    hide KeysOf;
    if evidence != [] {
      var before, last := evidence[..|evidence| - 1], evidence[|evidence| - 1];
      assert evidence == before + [last];
      SingleFiling(ops, t, before, key);
      FilingCounts(KeysOf(ops, t, last), key);
      var n := Filing(KeysOf(ops, t, last), key);
      assert n == 1 ==> Copies(last, n) == Copies(last, 0) + [last] == [last];
    }
  }

  // ----- postings ------------------------------------------------------------------------------

  type Postings = map<string, seq<string>>

  function Get(m: Postings, key: string): seq<string> {
    if key in m then m[key] else []
  }

  /** Append `id` to the list of every key. */
  function FileUnder(m: Postings, keys: seq<string>, id: string): Postings {
    if keys == [] then m
    else
      var before := FileUnder(m, keys[..|keys| - 1], id);
      var key := keys[|keys| - 1];
      before[key := Get(before, key) + [id]]
  }

  /** The table `m` holds the ids of exactly the hits, key by key. */
  ghost predicate Indexes(ops: TextOps, t: Table, evidence: seq<Evidence>, m: Postings) {
    forall key :: Get(m, key) == EvidenceIds(Hits(ops, t, evidence, key))
  }

  lemma {:induction false} FileUnderAppends(m: Postings, keys: seq<string>, id: string, key: string)
    ensures Get(FileUnder(m, keys, id), key) == Get(m, key) + Copies(id, Filing(keys, key))
  {
    if keys == [] {
      assert Get(m, key) + [] == Get(m, key);
    } else {
      var front, last := keys[..|keys| - 1], keys[|keys| - 1];
      FileUnderAppends(m, front, id, key);
      var before := FileUnder(m, front, id);
      assert FileUnder(m, keys, id) == before[last := Get(before, last) + [id]];
      if last == key {
        assert Filing(keys, key) == Filing(front, key) + 1;
        assert Copies(id, Filing(keys, key)) == Copies(id, Filing(front, key)) + [id];
      } else {
        assert Filing(keys, key) == Filing(front, key);
      }
    }
  }

  lemma {:induction false} FileUnderTwice(m: Postings, first: seq<string>, second: seq<string>, id: string)
    ensures FileUnder(FileUnder(m, first, id), second, id) == FileUnder(m, first + second, id)
  {
    if second == [] {
      assert first + second == first;
    } else {
      var last := |second| - 1;
      FileUnderTwice(m, first, second[..last], id);
      assert (first + second)[..|first + second| - 1] == first + second[..last];
    }
  }

  lemma {:induction false} CopiesOfIds(e: Evidence, n: nat)
    ensures EvidenceIds(Copies(e, n)) == Copies(e.evidenceId, n)
  {
    if n > 0 { CopiesOfIds(e, n - 1); }
  }

  lemma IndexesOneMore(ops: TextOps, t: Table, evidence: seq<Evidence>, n: nat, m: Postings)
    requires n < |evidence| && Indexes(ops, t, evidence[..n], m)
    ensures Indexes(ops, t, evidence[..n + 1], FileUnder(m, KeysOf(ops, t, evidence[n]), evidence[n].evidenceId))
  {
    hide KeysOf, FileUnder;
    var keys, e := KeysOf(ops, t, evidence[n]), evidence[n];
    assert evidence[..n + 1][..n] == evidence[..n];
    forall key ensures Get(FileUnder(m, keys, e.evidenceId), key) == EvidenceIds(Hits(ops, t, evidence[..n + 1], key)) {
      FileUnderAppends(m, keys, e.evidenceId, key);
      CopiesOfIds(e, Filing(keys, key));
      var hits := Hits(ops, t, evidence[..n], key);
      assert EvidenceIds(hits + Copies(e, Filing(keys, key)))
             == EvidenceIds(hits) + EvidenceIds(Copies(e, Filing(keys, key)));
    }
  }

  lemma NothingIndexed(ops: TextOps, evidence: seq<Evidence>)
    ensures forall t :: Indexes(ops, t, evidence[..0], map[])
  {
  }

  /** Looking an id up in the dictionary of items: a later item hides an earlier one. */
  function ItemById(evidence: seq<Evidence>, id: string): (r: Option<Evidence>)
    ensures r.Some? ==> r.value in evidence && r.value.evidenceId == id
    ensures r.None? ==> forall e :: e in evidence ==> e.evidenceId != id
  {
    if evidence == [] then None
    else if evidence[|evidence| - 1].evidenceId == id then Some(evidence[|evidence| - 1])
    else
      assert evidence == evidence[..|evidence| - 1] + [evidence[|evidence| - 1]];
      ItemById(evidence[..|evidence| - 1], id)
  }

  lemma ItemByItsId(evidence: seq<Evidence>, e: Evidence)
    requires UniqueIds(evidence) && e in evidence
    ensures ItemById(evidence, e.evidenceId) == Some(e)
  {
    var found := ItemById(evidence, e.evidenceId);
    var j :| 0 <= j < |evidence| && evidence[j] == e;
    var k :| 0 <= k < |evidence| && evidence[k] == found.value;
  }

  // ----- the class --------------------------------------------------------------------------------

  class EvidenceIndex {
    const ops: TextOps
    const evidence: seq<Evidence>
    var byId: map<string, Evidence>
    var byRecord: Postings
    var byIndicator: Postings
    var byHash: Postings
    var byPath: Postings
    var byHost: Postings
    var byProcess: Postings
    var byDomain: Postings

    function TableOf(t: Table): Postings
      reads this
    {
      match t
      case ByRecord => byRecord
      case ByIndicator => byIndicator
      case ByHash => byHash
      case ByPath => byPath
      case ByHost => byHost
      case ByProcess => byProcess
      case ByDomain => byDomain
    }

    ghost predicate Indexed(n: nat)
      requires n <= |evidence|
      reads this
    {
      var items := evidence[..n];
      && Indexes(ops, ByRecord, items, byRecord)
      && Indexes(ops, ByIndicator, items, byIndicator)
      && Indexes(ops, ByHash, items, byHash)
      && Indexes(ops, ByPath, items, byPath)
      && Indexes(ops, ByHost, items, byHost)
      && Indexes(ops, ByProcess, items, byProcess)
      && Indexes(ops, ByDomain, items, byDomain)
    }

    ghost predicate Valid()
      reads this
    {
      && UniqueIds(evidence)
      && Indexed(|evidence|)
      && (forall id :: id in byId <==> ItemById(evidence, id).Some?)
      && (forall id :: id in byId ==> byId[id] == ItemById(evidence, id).value)
    }

    constructor (ops: TextOps, evidence: seq<Evidence>)
      requires UniqueIds(evidence)
      ensures Valid()
      ensures this.ops == ops && this.evidence == evidence
    {
      hide Hits;
      this.ops, this.evidence := ops, evidence;
      byId, byRecord, byIndicator, byHash, byPath, byHost, byProcess, byDomain
        := map[], map[], map[], map[], map[], map[], map[], map[];
      new;
      for n := 0 to |evidence|
        invariant byRecord == byIndicator == byHash == byPath == byHost == byProcess == byDomain == map[]
        invariant forall id :: id in byId <==> ItemById(evidence[..n], id).Some?
        invariant forall id :: id in byId ==> byId[id] == ItemById(evidence[..n], id).value
      {
        assert evidence[..n + 1][..n] == evidence[..n];
        byId := byId[evidence[n].evidenceId := evidence[n]];
      }
      assert evidence[..|evidence|] == evidence;
      NothingIndexed(ops, evidence);
      ghost var items := byId;
      for n := 0 to |evidence|
        invariant Indexed(n)
        invariant byId == items
      {
        IndexItem(n);
      }
    }

    /** File one item under each of its structured fields. */
    method IndexItem(n: nat)
      requires n < |evidence| && Indexed(n)
      modifies this`byRecord, this`byHost, this`byProcess, this`byDomain, this`byPath, this`byHash, this`byIndicator
      ensures Indexed(n + 1)
    {
      hide Hits, FileUnder, FoldedKey, Indexes, Get, EvidenceIds;
      hide TextAt;
      var item, id := evidence[n], evidence[n].evidenceId;
      FileUnderTwice(byPath, FoldedKey(ops, item, Path), FoldedKey(ops, item, FilePath), id);
      IndexesOneMore(ops, ByRecord, evidence, n, byRecord);
      IndexesOneMore(ops, ByIndicator, evidence, n, byIndicator);
      IndexesOneMore(ops, ByHash, evidence, n, byHash);
      IndexesOneMore(ops, ByPath, evidence, n, byPath);
      IndexesOneMore(ops, ByHost, evidence, n, byHost);
      IndexesOneMore(ops, ByProcess, evidence, n, byProcess);
      IndexesOneMore(ops, ByDomain, evidence, n, byDomain);
      byRecord := FileUnder(byRecord, KeysOf(ops, ByRecord, item), id);
      byHost := FileUnder(byHost, FoldedKey(ops, item, Host), id);
      byProcess := FileUnder(byProcess, FoldedKey(ops, item, ProcessName), id);
      byDomain := FileUnder(byDomain, FoldedKey(ops, item, Query), id);
      byPath := FileUnder(byPath, FoldedKey(ops, item, Path), id);
      byPath := FileUnder(byPath, FoldedKey(ops, item, FilePath), id);
      byHash := FileUnder(byHash, FoldedKey(ops, item, Sha256), id);
      byIndicator := FileUnder(byIndicator, KeysOf(ops, ByIndicator, item), id);
    }

    /** One item, or nothing when the id is unknown. */
    function Item(evidenceId: string): (r: Option<Evidence>)
      requires Valid()
      reads this
      ensures r == ItemById(evidence, evidenceId)
    {
      if evidenceId in byId then Some(byId[evidenceId]) else None
    }

    /** The items behind one table entry: every id resolves, to the scanned items in their order. */
    function Lookup(t: Table, argument: string): (r: seq<Evidence>)
      requires Valid()
      reads this
      ensures r == Hits(ops, t, evidence, LookupKey(ops, t, argument))
    {
      var ids := Get(TableOf(t), LookupKey(ops, t, argument));
      IdsResolve(t, argument);
      var items := byId;
      seq(|ids|, i requires 0 <= i < |ids| => items[ids[i]])
    }

    lemma IdsResolve(t: Table, argument: string)
      requires Valid()
      ensures var ids := Get(TableOf(t), LookupKey(ops, t, argument));
              var hits := Hits(ops, t, evidence, LookupKey(ops, t, argument));
              |ids| == |hits| && forall i :: 0 <= i < |ids| ==> ids[i] in byId && byId[ids[i]] == hits[i]
    {
      hide Hits;
      var key := LookupKey(ops, t, argument);
      assert evidence[..|evidence|] == evidence;
      var hits := Hits(ops, t, evidence, key);
      assert Get(TableOf(t), key) == EvidenceIds(hits);
      forall i | 0 <= i < |hits| ensures hits[i].evidenceId in byId && byId[hits[i].evidenceId] == hits[i] {
        HitsBelong(ops, t, evidence, key, hits[i]);
        ItemByItsId(evidence, hits[i]);
      }
    }

    method ItemsOfType(evidenceType: EvidenceType) returns (items: seq<Evidence>)
      ensures items == Select(ops, evidence, OfType(evidenceType))
    {
      items := Scan(ops, evidence, OfType(evidenceType));
    }

    /** Telemetry that observes the indicator; nothing for a blank one. */
    method ObservedOccurrences(indicator: string) returns (matches: seq<Evidence>)
      ensures matches == Occurrences(ops, evidence, indicator)
    {
      var target := ops.Normalize(indicator);
      if target == "" {
        return [];
      }
      var items := Scan(ops, evidence, Observed);
      matches := Scan(ops, items, ObservedAs(target));
      SelectWithin(ops, evidence, Observed, ObservedAs(target));
    }

    /** The distinct raw record ids of the items, in order of first occurrence. */
    method RecordIds(items: seq<Evidence>) returns (ordered: seq<string>)
      ensures ordered == DistinctRecordIds(items)
    {
      ordered := [];
      for n := 0 to |items|
        invariant ordered == DistinctRecordIds(items[..n])
      {
        assert items[..n + 1][..n] == items[..n];
        var recordId := TextAt(items[n].content, RecordId);
        if recordId != "" && recordId !in ordered {
          ordered := ordered + [recordId];
        }
      }
      assert items[..|items|] == items;
    }
  }
}
