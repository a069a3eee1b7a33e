/** When two reputation assertions count as the same record (app/evidence/dedup.py). */
module Fingerprints {
  import opened Contracts
  import opened EvidenceContracts
  import opened Extractor

  predicate NoColon(s: string) {
    ':' !in s
  }

  /** Where the colon between two texts stands, and that it is the only one on the side without colons. */
  lemma ColonBetween(a: string, b: string)
    ensures var s := a + ":" + b;
            && s[|a|] == ':' && s[..|a|] == a && s[|a| + 1..] == b
            && (NoColon(a) ==> forall i :: 0 <= i < |a| ==> s[i] != ':')
            && (NoColon(b) ==> forall i :: |a| < i < |s| ==> s[i] != ':')
  {
    var s := a + ":" + b;
    assert forall i :: 0 <= i < |a| ==> s[i] == a[i] && a[i] in a;
    assert forall i :: |a| < i < |s| ==> s[i] == b[i - |a| - 1] && b[i - |a| - 1] in b;
  }

  lemma SplitAtFirst(a: string, x: string, b: string, y: string)
    requires NoColon(a) && NoColon(b) && a + ":" + x == b + ":" + y
    ensures a == b && x == y
  {
    ColonBetween(a, x);
    ColonBetween(b, y);
  }

  lemma SplitAtLast(x: string, a: string, y: string, b: string)
    requires NoColon(a) && NoColon(b) && x + ":" + a == y + ":" + b
    ensures x == y && a == b
  {
    ColonBetween(x, a);
    ColonBetween(y, b);
  }

  /** Indicator and source as they stand in the fingerprint. */
  function Named(k: CaseContext, r: ReputationRecord): string {
    k.ops.casefold(r.indicator) + ":" + k.ops.casefold(r.source)
  }

  /** Types, reputations and confidences are words and numbers without a colon. */
  predicate Plain(k: CaseContext, r: ReputationRecord) {
    NoColon(r.indicatorType) && NoColon(r.reputation) && NoColon(k.schemas.fixedPoint(r.confidence))
  }

  function Middle(k: CaseContext, r: ReputationRecord): string {
    r.indicatorType + ":" + Named(k, r) + ":" + r.reputation
  }

  lemma IdentityUnfolds(k: CaseContext, r: ReputationRecord)
    ensures ReputationIdentity(k, r)
            == REPUTATION_CLASS + ":" + (Middle(k, r) + ":" + k.schemas.fixedPoint(r.confidence))
  {
    var a, b, c, d, e := r.indicatorType, k.ops.casefold(r.indicator), k.ops.casefold(r.source), r.reputation,
                         k.schemas.fixedPoint(r.confidence);
    assert a + ":" + b + ":" + c + ":" + d + ":" + e == (a + ":" + (b + ":" + c) + ":" + d) + ":" + e;
  }

  /** Two assertions are the same record exactly when type, reputation and confidence agree and indicator and source
      read the same side by side. */
  lemma FingerprintsMeetIff(k: CaseContext, a: ReputationRecord, b: ReputationRecord)
    requires Plain(k, a) && Plain(k, b)
    ensures ReputationIdentity(k, a) == ReputationIdentity(k, b)
            <==> && a.indicatorType == b.indicatorType && Named(k, a) == Named(k, b)
                 && a.reputation == b.reputation
                 && k.schemas.fixedPoint(a.confidence) == k.schemas.fixedPoint(b.confidence)
  {
    IdentityUnfolds(k, a);
    IdentityUnfolds(k, b);
    hide ReputationIdentity, Named;
    if ReputationIdentity(k, a) == ReputationIdentity(k, b) {
      var left, right := Middle(k, a) + ":" + k.schemas.fixedPoint(a.confidence),
                         Middle(k, b) + ":" + k.schemas.fixedPoint(b.confidence);
      SameTail(REPUTATION_CLASS + ":", left, right);
      SplitAtLast(Middle(k, a), k.schemas.fixedPoint(a.confidence), Middle(k, b), k.schemas.fixedPoint(b.confidence));
      SplitAtLast(a.indicatorType + ":" + Named(k, a), a.reputation, b.indicatorType + ":" + Named(k, b), b.reputation);
      SplitAtFirst(a.indicatorType, Named(k, a), b.indicatorType, Named(k, b));
    }
  }

  lemma SameTail(head: string, a: string, b: string)
    requires head + a == head + b
    ensures a == b
  {
    assert a == (head + a)[|head|..] && b == (head + b)[|head|..];
  }

  /** Two sources that report the same indicator are kept apart, and so are different assertions of one source. */
  lemma SameIndicatorKeptApart(k: CaseContext, a: ReputationRecord, b: ReputationRecord)
    requires Plain(k, a) && Plain(k, b) && k.ops.casefold(a.indicator) == k.ops.casefold(b.indicator)
    ensures ReputationIdentity(k, a) == ReputationIdentity(k, b)
            <==> && a.indicatorType == b.indicatorType && k.ops.casefold(a.source) == k.ops.casefold(b.source)
                 && a.reputation == b.reputation
                 && k.schemas.fixedPoint(a.confidence) == k.schemas.fixedPoint(b.confidence)
  {
    FingerprintsMeetIff(k, a, b);
    hide ReputationIdentity;
    if Named(k, a) == Named(k, b) {
      SameTail(k.ops.casefold(a.indicator) + ":", k.ops.casefold(a.source), k.ops.casefold(b.source));
    }
  }

  /** Different indicators can meet: the colon inside one indicator takes the place of the separator. */
  lemma DifferentIndicatorsMeet(k: CaseContext, a: ReputationRecord, b: ReputationRecord)
    requires k.ops.casefold(a.indicator) == "a:b" && k.ops.casefold(a.source) == "c"
    requires k.ops.casefold(b.indicator) == "a" && k.ops.casefold(b.source) == "b:c"
    requires Plain(k, a) && Plain(k, b)
    requires a.indicatorType == b.indicatorType && a.reputation == b.reputation && a.confidence == b.confidence
    ensures ReputationIdentity(k, a) == ReputationIdentity(k, b) && a.indicator != b.indicator
  {
    FingerprintsMeetIff(k, a, b);
    assert "a:b" + ":" + "c" == "a" + ":" + "b:c";
  }
}
