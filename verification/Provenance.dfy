/** Deterministic ordering of source references (app/evidence/provenance.py). */
module Provenance {
  import opened EvidenceContracts
  import opened Ordering

  function SortKey(r: SourceReference): seq<string> {
    [r.resultId, r.callId, r.recordId, r.rawRef]
  }

  function SortReferences(references: seq<SourceReference>): (r: seq<SourceReference>)
    ensures multiset(r) == multiset(references) && |r| == |references|
  {
    SortBy(SortKey, references)
  }

  /** The primary provenance is the head of the list in order. */
  function PrimaryProvenance(references: seq<SourceReference>): SourceReference
    requires references != []
  {
    SortReferences(references)[0]
  }

  /** The primary reference is a least one, and it is the head of a list already in order. */
  lemma PrimaryIsLeast(references: seq<SourceReference>)
    requires references != []
    ensures PrimaryProvenance(references) in references
    ensures forall r :: r in references ==> KeyLeq(SortKey(PrimaryProvenance(references)), SortKey(r))
    ensures PrimaryProvenance(SortReferences(references)) == SortReferences(references)[0]
    ensures PrimaryProvenance(SortReferences(references)) == PrimaryProvenance(references)
  {
    SortBySorts(SortKey, references);
    SortByIdempotent(SortKey, SortReferences(references));
    assert PrimaryProvenance(references) in multiset(SortReferences(references));
  }

  /** References are ordered by result, then call, then record, then raw reference. */
  lemma OrderIsLexicographic(a: SourceReference, b: SourceReference)
    ensures KeyLeq(SortKey(a), SortKey(b))
            <==> if a.resultId != b.resultId then StringLeq(a.resultId, b.resultId)
                 else if a.callId != b.callId then StringLeq(a.callId, b.callId)
                 else if a.recordId != b.recordId then StringLeq(a.recordId, b.recordId)
                 else a.rawRef == b.rawRef || StringLeq(a.rawRef, b.rawRef)
  {
    KeyStep(a.rawRef, [], b.rawRef, []);
    KeyStep(a.recordId, [a.rawRef], b.recordId, [b.rawRef]);
    KeyStep(a.callId, [a.recordId, a.rawRef], b.callId, [b.recordId, b.rawRef]);
    KeyStep(a.resultId, [a.callId, a.recordId, a.rawRef], b.resultId, [b.callId, b.recordId, b.rawRef]);
    hide KeyLeq, StringLeq;
    assert SortKey(a) == [a.resultId] + [a.callId, a.recordId, a.rawRef];
    assert SortKey(b) == [b.resultId] + [b.callId, b.recordId, b.rawRef];
    assert [a.callId, a.recordId, a.rawRef] == [a.callId] + [a.recordId, a.rawRef];
    assert [b.callId, b.recordId, b.rawRef] == [b.callId] + [b.recordId, b.rawRef];
    assert [a.recordId, a.rawRef] == [a.recordId] + [a.rawRef] && [b.recordId, b.rawRef] == [b.recordId] + [b.rawRef];
    assert [a.rawRef] == [a.rawRef] + [] && [b.rawRef] == [b.rawRef] + [];
    EmptyIsLeast([]);
  }

  lemma KeyStep(x: string, xs: seq<string>, y: string, ys: seq<string>)
    ensures KeyLeq([x] + xs, [y] + ys) <==> if x != y then StringLeq(x, y) else KeyLeq(xs, ys)
  {
    assert ([x] + xs)[1..] == xs && ([y] + ys)[1..] == ys;
  }

  lemma EmptyIsLeast(ys: seq<string>)
    ensures KeyLeq([], ys)
  {
  }
}
