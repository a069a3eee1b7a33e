/** Source-preserving evidence accumulation (app/evidence/dedup.py). */
module Dedup {
  import opened EvidenceContracts
  import opened Ordering
  import opened Provenance
  import Ids

  /** One raw-record occurrence as it is handed to the accumulator. */
  datatype Occurrence = Occurrence(
    identity: string, evidenceType: EvidenceType, content: Content, tags: seq<string>,
    reference: SourceReference)

  datatype Candidate = Candidate(
    identity: string, evidenceType: EvidenceType, content: Content, tags: seq<string>,
    references: seq<SourceReference>)

  // ----- what an occurrence list stands for -----------------------------------------

  /** The identities in order of first occurrence. */
  function Identities(occs: seq<Occurrence>): seq<string> {
    if occs == [] then []
    else
      var before := Identities(occs[..|occs| - 1]);
      var last := occs[|occs| - 1].identity;
      if last in before then before else before + [last]
  }

  /** The occurrences of one identity, in order. */
  function Of(occs: seq<Occurrence>, identity: string): seq<Occurrence> {
    if occs == [] then []
    else
      var last := occs[|occs| - 1];
      Of(occs[..|occs| - 1], identity) + if last.identity == identity then [last] else []
  }

  function MergeTags(have: seq<string>, more: seq<string>): (r: seq<string>)
    ensures have <= r
    ensures forall t :: t in r <==> t in have || t in more
    ensures forall k :: |have| <= k < |r| ==> r[k] in more && r[k] !in have
    decreases |more|
  {
    if more == [] then have
    else
      var before := MergeTags(have, more[..|more| - 1]);
      var last := more[|more| - 1];
      if last in before then before else before + [last]
  }

  function References(occs: seq<Occurrence>): (r: seq<SourceReference>)
    ensures |r| == |occs|
  {
    seq(|occs|, k requires 0 <= k < |occs| => occs[k].reference)
  }

  function AllTags(occs: seq<Occurrence>): seq<string>
    requires occs != []
  {
    if |occs| == 1 then occs[0].tags
    else MergeTags(AllTags(occs[..|occs| - 1]), occs[|occs| - 1].tags)
  }

  /** The candidate of one identity: first content, every reference, united tags. */
  function CandidateOf(same: seq<Occurrence>): Candidate
    requires same != []
  {
    Candidate(same[0].identity, same[0].evidenceType, same[0].content, AllTags(same), References(same))
  }

  function EvidenceId(k: nat): string {
    Ids.FormatId(EVIDENCE_PREFIX, k + 1)
  }

  function ItemFrom(k: nat, candidate: Candidate): Evidence
    requires candidate.references != []
  {
    Evidence(EvidenceId(k), candidate.evidenceType, candidate.content,
             PrimaryProvenance(candidate.references), candidate.tags)
  }

  function Item(occs: seq<Occurrence>, k: nat): Evidence
    requires k < |Identities(occs)|
  {
    OfKnown(occs, Identities(occs)[k]);
    ItemFrom(k, CandidateOf(Of(occs, Identities(occs)[k])))
  }

  lemma ItemOf(occs: seq<Occurrence>, k: nat)
    requires k < |Identities(occs)|
    ensures Of(occs, Identities(occs)[k]) != []
    ensures Item(occs, k) == ItemFrom(k, CandidateOf(Of(occs, Identities(occs)[k])))
  {
    OfKnown(occs, Identities(occs)[k]);
  }

  function Sources(occs: seq<Occurrence>, k: nat): seq<SourceReference>
    requires k < |Identities(occs)|
  {
    SortReferences(References(Of(occs, Identities(occs)[k])))
  }

  function EvidenceOf(occs: seq<Occurrence>): (r: seq<Evidence>)
    ensures |r| == |Identities(occs)|
  {
    seq(|Identities(occs)|, k requires 0 <= k < |Identities(occs)| => Item(occs, k))
  }

  ghost predicate IsSourceIndex(sources: map<string, seq<SourceReference>>, occs: seq<Occurrence>, n: nat)
    requires n <= |Identities(occs)|
  {
    && sources.Keys == (set k | 0 <= k < n :: EvidenceId(k))
    && (forall k :: 0 <= k < n ==> sources[EvidenceId(k)] == Sources(occs, k))
  }

  // ----- basic facts -------------------------------------------------------------------

  lemma {:induction false} OfKnown(occs: seq<Occurrence>, identity: string)
    ensures identity in Identities(occs) <==> Of(occs, identity) != []
    ensures forall o :: o in Of(occs, identity) <==> o in occs && o.identity == identity
  {
    if occs != [] {
      OfKnown(occs[..|occs| - 1], identity);
      assert occs == occs[..|occs| - 1] + [occs[|occs| - 1]];
    }
  }

  lemma {:induction false} IdentitiesDistinct(occs: seq<Occurrence>)
    ensures Distinct(Identities(occs))
  {
    if occs != [] {
      IdentitiesDistinct(occs[..|occs| - 1]);
    }
  }

  lemma {:induction false} AllTagsUnite(occs: seq<Occurrence>, tag: string)
    requires occs != []
    ensures tag in AllTags(occs) <==> exists k :: 0 <= k < |occs| && tag in occs[k].tags
  {
    if |occs| > 1 {
      var front := occs[..|occs| - 1];
      AllTagsUnite(front, tag);
      if k :| 0 <= k < |front| && tag in front[k].tags {
        assert occs[k] == front[k];
      }
      if k :| 0 <= k < |occs| && tag in occs[k].tags {
        if k < |front| {
          assert front[k] == occs[k];
        }
      }
    }
  }

  lemma EvidenceIdInjective(j: nat, k: nat)
    requires EvidenceId(j) == EvidenceId(k)
    ensures j == k
  {
    Ids.FormatIdInjective(EVIDENCE_PREFIX, j + 1, k + 1);
  }

  /** The indexed ids are exactly the ids of the items, and no two items share one. */
  lemma IdsDense(occs: seq<Occurrence>)
    ensures UniqueIds(EvidenceOf(occs))
    ensures forall k :: 0 <= k < |EvidenceOf(occs)| ==> EvidenceOf(occs)[k].evidenceId == EvidenceId(k)
  {
    var items := EvidenceOf(occs);
    hide Ids.FormatId;
    forall j, k | 0 <= j < k < |items| ensures items[j].evidenceId != items[k].evidenceId {
      if EvidenceId(j) == EvidenceId(k) {
        EvidenceIdInjective(j, k);
      }
    }
  }

  lemma AppendOne(seen: seq<Occurrence>, o: Occurrence)
    ensures Identities(seen + [o]) == Identities(seen) + if o.identity in Identities(seen) then [] else [o.identity]
    ensures forall id :: Of(seen + [o], id) == if o.identity == id then Of(seen, id) + [o] else Of(seen, id)
  {
    assert (seen + [o])[..|seen|] == seen;
  }

  lemma CandidateFirst(o: Occurrence)
    ensures CandidateOf([o]) == Candidate(o.identity, o.evidenceType, o.content, o.tags, [o.reference])
  {
  }

  lemma CandidateAppend(same: seq<Occurrence>, o: Occurrence)
    requires same != []
    ensures var c := CandidateOf(same);
            CandidateOf(same + [o]) == c.(references := c.references + [o.reference], tags := MergeTags(c.tags, o.tags))
  {
    assert (same + [o])[..|same|] == same;
  }

  // ----- the accumulator ------------------------------------------------------------------

  class EvidenceAccumulator {
    var order: seq<string>
    var candidates: map<string, Candidate>
    var candidateCount: nat
    ghost var occurrences: seq<Occurrence>

    ghost predicate Valid()
      reads this
    {
      && candidateCount == |occurrences|
      && order == Identities(occurrences)
      && (forall id :: id in candidates <==> id in order)
      && (forall id :: id in candidates ==>
            Of(occurrences, id) != [] && candidates[id] == CandidateOf(Of(occurrences, id)))
    }

    constructor ()
      ensures Valid() && occurrences == []
    {
      order, candidates, candidateCount, occurrences := [], map[], 0, [];
    }

    /** Register one raw record occurrence. */
    method Add(o: Occurrence)
      requires Valid()
      modifies this
      ensures Valid() && occurrences == old(occurrences) + [o]
    {
      hide MergeTags, Of, Identities, CandidateOf;
      ghost var seen := occurrences;
      AppendOne(seen, o);
      OfKnown(seen, o.identity);
      candidateCount := candidateCount + 1;
      occurrences := occurrences + [o];
      if o.identity !in candidates {
        CandidateFirst(o);
        assert Of(seen, o.identity) + [o] == [o];
        candidates := candidates[o.identity :=
          Candidate(o.identity, o.evidenceType, o.content, o.tags, [o.reference])];
        order := order + [o.identity];
      } else {
        var existing := candidates[o.identity];
        CandidateAppend(Of(seen, o.identity), o);
        candidates := candidates[o.identity :=
          existing.(references := existing.references + [o.reference],
                    tags := MergeTags(existing.tags, o.tags))];
      }
    }

    /** The number of raw records seen before deduplication. */
    method Count() returns (n: nat)
      requires Valid()
      ensures n == |occurrences|
    {
      n := candidateCount;
    }

    /** The deduplicated evidence and the multi-source index. */
    method Build() returns (evidence: seq<Evidence>, sources: map<string, seq<SourceReference>>)
      requires Valid()
      ensures evidence == EvidenceOf(occurrences)
      ensures IsSourceIndex(sources, occurrences, |Identities(occurrences)|)
    {
      hide Ids.FormatId, Identities, Of, AllTags, PrimaryProvenance;
      evidence, sources := [], map[];
      var index := 0;
      while index < |order|
        invariant 0 <= index <= |order|
        invariant |evidence| == index
        invariant forall k :: 0 <= k < index ==> evidence[k] == Item(occurrences, k)
        invariant IsSourceIndex(sources, occurrences, index)
      {
        var candidate := candidates[order[index]];
        var evidenceId := EvidenceId(index);
        var references := SortReferences(candidate.references);
        PrimaryIsLeast(candidate.references);
        ItemOf(occurrences, index);
        evidence := evidence + [Evidence(evidenceId, candidate.evidenceType, candidate.content,
                                         PrimaryProvenance(references), candidate.tags)];
        forall k | 0 <= k < index ensures EvidenceId(k) != evidenceId {
          if EvidenceId(k) == evidenceId { EvidenceIdInjective(k, index); }
        }
        sources := sources[evidenceId := references];
        index := index + 1;
      }
    }
  }

  // ----- conservation -------------------------------------------------------------------

  function TotalSources(occs: seq<Occurrence>, identities: seq<string>): nat {
    if identities == [] then 0
    else TotalSources(occs, identities[..|identities| - 1]) + |Of(occs, identities[|identities| - 1])|
  }

  lemma {:induction false} TotalGrows(occs: seq<Occurrence>, identities: seq<string>)
    requires occs != [] && Distinct(identities)
    ensures TotalSources(occs, identities)
            == TotalSources(occs[..|occs| - 1], identities)
               + if occs[|occs| - 1].identity in identities then 1 else 0
  {
    if identities != [] {
      var last := |identities| - 1;
      TotalGrows(occs, identities[..last]);
      assert identities == identities[..last] + [identities[last]];
    }
  }

  lemma {:induction false} EveryOccurrenceIsKept(occs: seq<Occurrence>)
    ensures TotalSources(occs, Identities(occs)) == |occs|
  {
    if occs != [] {
      var before := occs[..|occs| - 1];
      EveryOccurrenceIsKept(before);
      IdentitiesDistinct(occs);
      TotalGrows(occs, Identities(occs));
      var last := occs[|occs| - 1].identity;
      if last !in Identities(before) {
        assert Identities(occs)[..|Identities(occs)| - 1] == Identities(before);
        OfKnown(before, last);
      }
    }
  }

  lemma {:induction false} TotalAtLeast(occs: seq<Occurrence>, identities: seq<string>)
    requires forall id :: id in identities ==> id in Identities(occs)
    ensures TotalSources(occs, identities) >= |identities|
  {
    if identities != [] {
      TotalAtLeast(occs, identities[..|identities| - 1]);
      OfKnown(occs, identities[|identities| - 1]);
    }
  }

  /** Σ |sources| over all items: the number of source references kept. */
  function ReferenceCount(extraction: Extraction, n: nat): nat
    requires n <= |extraction.evidence|
  {
    if n == 0 then 0
    else
      var id := extraction.evidence[n - 1].evidenceId;
      ReferenceCount(extraction, n - 1) + if id in extraction.sources then |extraction.sources[id]| else 0
  }

  ghost predicate Built(extraction: Extraction, occs: seq<Occurrence>) {
    && extraction.evidence == EvidenceOf(occs)
    && IsSourceIndex(extraction.sources, occs, |Identities(occs)|)
    && extraction.candidateCount == |occs|
  }

  lemma {:induction false} ReferencesCounted(extraction: Extraction, occs: seq<Occurrence>, n: nat)
    requires Built(extraction, occs) && n <= |extraction.evidence|
    ensures ReferenceCount(extraction, n) == TotalSources(occs, Identities(occs)[..n])
  {
    if n > 0 {
      ReferencesCounted(extraction, occs, n - 1);
      assert Identities(occs)[..n][..n - 1] == Identities(occs)[..n - 1];
      assert EvidenceId(n - 1) in extraction.sources;
    }
  }

  /** Nothing is lost: as many source references are kept as raw records were seen, so the
      duplicate count is their exact difference to the evidence and the clamp never clips. */
  lemma SourcesConserved(extraction: Extraction, occs: seq<Occurrence>)
    requires Built(extraction, occs)
    ensures ReferenceCount(extraction, |extraction.evidence|) == extraction.candidateCount
    ensures |extraction.evidence| <= extraction.candidateCount
    ensures extraction.DuplicateHitCount() == extraction.candidateCount - |extraction.evidence|
  {
    ReferencesCounted(extraction, occs, |extraction.evidence|);
    assert Identities(occs)[..|Identities(occs)|] == Identities(occs);
    EveryOccurrenceIsKept(occs);
    TotalAtLeast(occs, Identities(occs));
  }

  lemma SourcesExist(occs: seq<Occurrence>, k: nat)
    requires k < |Identities(occs)|
    ensures Sources(occs, k) != []
  {
    OfKnown(occs, Identities(occs)[k]);
  }

  /** What the accumulator builds satisfies the extraction contract. */
  lemma BuiltIsValid(extraction: Extraction, occs: seq<Occurrence>)
    requires Built(extraction, occs)
    ensures extraction.Valid()
  {
    hide Item, Sources, EvidenceId;
    IdsDense(occs);
    var ids := EvidenceIds(extraction.evidence);
    forall k | 0 <= k < |ids| ensures ids[k] == EvidenceId(k) && extraction.sources[EvidenceId(k)] != [] {
      assert extraction.evidence[k] == EvidenceOf(occs)[k];
      ItemOf(occs, k);
      SourcesExist(occs, k);
    }
    forall id ensures id in extraction.sources <==> id in ids {
      if id in extraction.sources {
        var k :| 0 <= k < |ids| && id == EvidenceId(k);
        assert ids[k] == id;
      }
    }
  }

  /** One item is faithful to all its occurrences: content and type of the first one, the union
      of the tags, and a sorted permutation of all references headed by a least one, the primary. */
  lemma ItemIsFaithful(occs: seq<Occurrence>, k: nat)
    requires k < |Identities(occs)|
    ensures var same := Of(occs, Identities(occs)[k]); var item := Item(occs, k);
            && same != []
            && item.content == same[0].content && item.evidenceType == same[0].evidenceType
            && (forall tag :: tag in item.tags <==> exists j :: 0 <= j < |same| && tag in same[j].tags)
            && multiset(Sources(occs, k)) == multiset(References(same))
            && Sorted(SortKey, Sources(occs, k))
            && item.provenance == Sources(occs, k)[0]
            && (forall o :: o in same ==> KeyLeq(SortKey(item.provenance), SortKey(o.reference)))
  {
    var same := Of(occs, Identities(occs)[k]);
    OfKnown(occs, Identities(occs)[k]);
    forall tag ensures tag in Item(occs, k).tags <==> exists j :: 0 <= j < |same| && tag in same[j].tags {
      AllTagsUnite(same, tag);
    }
    SortBySorts(SortKey, References(same));
    PrimaryIsLeast(References(same));
    forall o | o in same ensures KeyLeq(SortKey(Item(occs, k).provenance), SortKey(o.reference)) {
      var j :| 0 <= j < |same| && same[j] == o;
      assert References(same)[j] == o.reference;
    }
  }

  // ----- stability ---------------------------------------------------------------------------

  lemma {:induction false} IdentitiesExtend(occs: seq<Occurrence>, more: seq<Occurrence>)
    ensures Identities(occs) <= Identities(occs + more)
  {
    if more == [] {
      assert occs + more == occs;
    } else {
      IdentitiesExtend(occs, more[..|more| - 1]);
      assert (occs + more)[..|occs + more| - 1] == occs + more[..|more| - 1];
    }
  }

  lemma {:induction false} OfAppend(occs: seq<Occurrence>, more: seq<Occurrence>, identity: string)
    ensures Of(occs + more, identity) == Of(occs, identity) + Of(more, identity)
  {
    if more == [] {
      assert occs + more == occs;
    } else {
      var last := |more| - 1;
      OfAppend(occs, more[..last], identity);
      var all := occs + more;
      assert all[..|all| - 1] == occs + more[..last] && all[|all| - 1] == more[last];
      var tail := if more[last].identity == identity then [more[last]] else [];
      assert Of(all, identity) == Of(occs + more[..last], identity) + tail;
      assert Of(more, identity) == Of(more[..last], identity) + tail;
    }
  }

  /** Equal occurrence by occurrence, except for the case-link tags. */
  ghost predicate SameRecords(a: seq<Occurrence>, b: seq<Occurrence>) {
    |a| == |b| && forall k :: 0 <= k < |a| ==> a[k] == b[k].(tags := a[k].tags)
  }

  lemma {:induction false} SameIdentities(a: seq<Occurrence>, b: seq<Occurrence>)
    requires SameRecords(a, b)
    ensures Identities(a) == Identities(b)
  {
    if a != [] {
      SameIdentities(a[..|a| - 1], b[..|b| - 1]);
    }
  }

  lemma {:induction false} SameOf(a: seq<Occurrence>, b: seq<Occurrence>, identity: string)
    requires SameRecords(a, b)
    ensures SameRecords(Of(a, identity), Of(b, identity))
  {
    if a != [] {
      SameOf(a[..|a| - 1], b[..|b| - 1], identity);
    }
  }

  lemma ItemIsStable(occs: seq<Occurrence>, relinked: seq<Occurrence>, more: seq<Occurrence>, k: nat)
    requires SameRecords(occs, relinked) && Identities(occs) <= Identities(relinked + more)
    requires k < |Identities(occs)|
    ensures Item(relinked + more, k).evidenceType == Item(occs, k).evidenceType
    ensures Item(relinked + more, k).content == Item(occs, k).content
    ensures multiset(Sources(occs, k)) <= multiset(Sources(relinked + more, k))
  {
    hide Identities, Of, AllTags, SortReferences, PrimaryProvenance;
    var identity := Identities(occs)[k];
    assert Identities(relinked + more)[k] == identity;
    SameOf(occs, relinked, identity);
    OfAppend(relinked, more, identity);
    OfKnown(occs, identity);
    var same, now := Of(occs, identity), Of(relinked, identity) + Of(more, identity);
    assert References(now) == References(same) + References(Of(more, identity));
    assert now[0] == Of(relinked, identity)[0];
  }

  /** Later occurrences, and other case links on the old ones, never renumber or re-identify an
      item: it keeps its id, its identity, its type and its content, and only gains references. */
  lemma EvidenceIsStable(occs: seq<Occurrence>, relinked: seq<Occurrence>, more: seq<Occurrence>)
    requires SameRecords(occs, relinked)
    ensures Identities(occs) <= Identities(relinked + more)
    ensures forall k :: 0 <= k < |Identities(occs)| ==>
              && Item(relinked + more, k).evidenceId == Item(occs, k).evidenceId
              && Item(relinked + more, k).evidenceType == Item(occs, k).evidenceType
              && Item(relinked + more, k).content == Item(occs, k).content
              && multiset(Sources(occs, k)) <= multiset(Sources(relinked + more, k))
  {
    SameIdentities(occs, relinked);
    IdentitiesExtend(relinked, more);
    forall k | 0 <= k < |Identities(occs)|
      ensures Item(relinked + more, k).evidenceType == Item(occs, k).evidenceType
              && Item(relinked + more, k).content == Item(occs, k).content
              && multiset(Sources(occs, k)) <= multiset(Sources(relinked + more, k))
    {
      ItemIsStable(occs, relinked, more, k);
    }
  }
}
