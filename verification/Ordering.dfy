/** Python's `sorted` on string tuples: code-point order, stable, as an insertion sort. */
module Ordering {
  /** Code-point order on strings. */
  predicate StringLeq(a: string, b: string) {
    if a == "" then true
    else if b == "" then false
    else if a[0] != b[0] then a[0] < b[0]
    else StringLeq(a[1..], b[1..])
  }

  /** Tuple order on lists of strings. */
  predicate KeyLeq(a: seq<string>, b: seq<string>) {
    if a == [] then true
    else if b == [] then false
    else if a[0] != b[0] then StringLeq(a[0], b[0])
    else KeyLeq(a[1..], b[1..])
  }

  lemma StringTotal(a: string, b: string)
    ensures StringLeq(a, b) || StringLeq(b, a)
    ensures StringLeq(a, b) && StringLeq(b, a) ==> a == b
  {
    if a != "" && b != "" && a[0] == b[0] {
      StringTotal(a[1..], b[1..]);
      if StringLeq(a, b) && StringLeq(b, a) {
        assert a == [a[0]] + a[1..] && b == [b[0]] + b[1..];
      }
    }
  }

  lemma StringTransitive(a: string, b: string, c: string)
    requires StringLeq(a, b) && StringLeq(b, c)
    ensures StringLeq(a, c)
  {
    if a != "" && b != "" && c != "" && a[0] == b[0] == c[0] {
      StringTransitive(a[1..], b[1..], c[1..]);
    }
  }

  lemma KeyTotal(a: seq<string>, b: seq<string>)
    ensures KeyLeq(a, b) || KeyLeq(b, a)
    ensures KeyLeq(a, b) && KeyLeq(b, a) ==> a == b
  {
    if a != [] && b != [] {
      if a[0] == b[0] {
        KeyTotal(a[1..], b[1..]);
        if KeyLeq(a, b) && KeyLeq(b, a) {
          assert a == [a[0]] + a[1..] && b == [b[0]] + b[1..];
        }
      } else {
        StringTotal(a[0], b[0]);
      }
    }
  }

  lemma KeyTransitive(a: seq<string>, b: seq<string>, c: seq<string>)
    requires KeyLeq(a, b) && KeyLeq(b, c)
    ensures KeyLeq(a, c)
  {
    if a != [] && b != [] && c != [] {
      if a[0] == b[0] == c[0] {
        KeyTransitive(a[1..], b[1..], c[1..]);
      } else if a[0] != b[0] && b[0] != c[0] {
        StringTransitive(a[0], b[0], c[0]);
        if a[0] == c[0] {
          StringTotal(a[0], b[0]);
        }
      }
    }
  }

  /** Stable insertion: `x` goes in front of the first element that is not below it. */
  function Insert<T>(key: T -> seq<string>, x: T, sorted: seq<T>): (r: seq<T>)
    ensures multiset(r) == multiset{x} + multiset(sorted) && |r| == |sorted| + 1
  {
    if sorted == [] then [x]
    else if KeyLeq(key(x), key(sorted[0])) then
      assert [x] + sorted == [x] + ([sorted[0]] + sorted[1..]);
      [x] + sorted
    else
      assert sorted == [sorted[0]] + sorted[1..];
      [sorted[0]] + Insert(key, x, sorted[1..])
  }

  function SortBy<T>(key: T -> seq<string>, xs: seq<T>): (r: seq<T>)
    ensures multiset(r) == multiset(xs) && |r| == |xs|
  {
    if xs == [] then []
    else
      assert xs == [xs[0]] + xs[1..];
      Insert(key, xs[0], SortBy(key, xs[1..]))
  }

  ghost predicate Sorted<T>(key: T -> seq<string>, xs: seq<T>) {
    forall j, k :: 0 <= j < k < |xs| ==> KeyLeq(key(xs[j]), key(xs[k]))
  }

  lemma {:induction false} InsertKeepsSorted<T>(key: T -> seq<string>, x: T, sorted: seq<T>)
    requires Sorted(key, sorted)
    ensures Sorted(key, Insert(key, x, sorted))
  {
    if sorted != [] {
      KeyTotal(key(x), key(sorted[0]));
      if KeyLeq(key(x), key(sorted[0])) {
        forall k | 0 <= k < |sorted| ensures KeyLeq(key(x), key(sorted[k])) {
          if k > 0 { KeyTransitive(key(x), key(sorted[0]), key(sorted[k])); }
        }
      } else {
        var rest := Insert(key, x, sorted[1..]);
        InsertKeepsSorted(key, x, sorted[1..]);
        forall k | 0 <= k < |rest| ensures KeyLeq(key(sorted[0]), key(rest[k])) {
          assert rest[k] in multiset(rest);
          if rest[k] != x {
            assert rest[k] in sorted[1..];
          }
        }
      }
    }
  }

  /** The result is a sorted permutation, so its first element is a least one. */
  lemma {:induction false} SortBySorts<T>(key: T -> seq<string>, xs: seq<T>)
    ensures Sorted(key, SortBy(key, xs))
    ensures multiset(SortBy(key, xs)) == multiset(xs)
    ensures xs != [] ==> forall x :: x in xs ==> KeyLeq(key(SortBy(key, xs)[0]), key(x))
  {
    if xs != [] {
      SortBySorts(key, xs[1..]);
      InsertKeepsSorted(key, xs[0], SortBy(key, xs[1..]));
      var sorted := SortBy(key, xs);
      forall x | x in xs ensures KeyLeq(key(sorted[0]), key(x)) {
        assert x in multiset(sorted);
        KeyTotal(key(x), key(x));
      }
    }
  }

  /** Sorting a sorted list changes nothing. */
  lemma {:induction false} SortByIdempotent<T>(key: T -> seq<string>, xs: seq<T>)
    requires Sorted(key, xs)
    ensures SortBy(key, xs) == xs
  {
    if xs != [] {
      SortByIdempotent(key, xs[1..]);
      assert xs == [xs[0]] + xs[1..];
    }
  }

  lemma SortByMembers<T>(key: T -> seq<string>, xs: seq<T>, x: T)
    ensures x in SortBy(key, xs) <==> x in xs
  {
    assert x in multiset(SortBy(key, xs)) <==> x in multiset(xs);
  }

  ghost predicate Distinct<T>(xs: seq<T>) {
    forall j, k :: 0 <= j < k < |xs| ==> xs[j] != xs[k]
  }

  lemma {:induction false} DistinctCounts<T>(xs: seq<T>)
    ensures Distinct(xs) <==> forall x :: multiset(xs)[x] <= 1
  {
    if xs == [] {
    } else {
      var last := |xs| - 1;
      DistinctCounts(xs[..last]);
      assert xs == xs[..last] + [xs[last]];
      if Distinct(xs) {
        assert xs[last] !in xs[..last];
      }
      if forall x :: multiset(xs)[x] <= 1 {
        forall x ensures multiset(xs[..last])[x] <= 1 {
          assert multiset(xs[..last])[x] <= multiset(xs)[x];
        }
        assert multiset(xs)[xs[last]] == multiset(xs[..last])[xs[last]] + 1;
        assert xs[last] !in multiset(xs[..last]);
        forall j | 0 <= j < last ensures xs[j] != xs[last] {
          assert xs[j] == xs[..last][j];
          assert xs[..last][j] in multiset(xs[..last]);
        }
        forall j, k | 0 <= j < k < last ensures xs[j] != xs[k] {
          assert xs[j] == xs[..last][j] && xs[k] == xs[..last][k];
        }
      }
    }
  }

  lemma SortByDistinct<T>(key: T -> seq<string>, xs: seq<T>)
    requires Distinct(xs)
    ensures Distinct(SortBy(key, xs))
  {
    DistinctCounts(xs);
    DistinctCounts(SortBy(key, xs));
  }

  function SelfKey(key: seq<string>): seq<string> {
    key
  }

  function StringKey(s: string): seq<string> {
    [s]
  }
}
