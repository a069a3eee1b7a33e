/** Multiplication as repeated addition, to keep counting arguments linear. */
module Multiples {
  function Times(n: nat, m: nat): nat {
    if n == 0 then 0 else Times(n - 1, m) + m
  }

  lemma {:induction false} TimesIsProduct(n: nat, m: nat)
    ensures Times(n, m) == n * m
  {
    if n > 0 {
      TimesIsProduct(n - 1, m);
      assert (n - 1) * m + m == n * m;
    }
  }

  lemma {:induction false} TimesStrict(a: nat, b: nat, m: nat)
    requires a < b
    ensures Times(a, m) + m <= Times(b, m)
  {
    if a + 1 < b { TimesStrict(a, b - 1, m); }
  }

  lemma TimesMonotone(a: nat, b: nat, m: nat)
    requires a <= b
    ensures Times(a, m) <= Times(b, m)
  {
    if a < b { TimesStrict(a, b, m); }
  }
}
