/** Identifier formatting and generation (app/runtime/ids.py). */
module Ids {
  const INCIDENT_PREFIX := "INC"
  const PLAN_PREFIX := "PLAN"
  const STEP_PREFIX := "STEP"
  const TOOL_CALL_PREFIX := "TC"
  const ID_DIGITS: nat := 6

  const DIGITS := "0123456789"

  /** Decimal rendering without leading zeros. */
  function Decimal(n: nat): string {
    if n < 10 then [DIGITS[n]] else Decimal(n / 10) + [DIGITS[n % 10]]
  }

  function DigitValue(c: char): nat {
    if '0' <= c <= '9' then (c - '0') as nat else 0
  }

  /** The number a digit string denotes; leading zeros do not matter. */
  function ParseDecimal(s: string): nat {
    if s == "" then 0 else 10 * ParseDecimal(s[..|s| - 1]) + DigitValue(s[|s| - 1])
  }

  function Zeros(k: nat): string {
    seq(k, i => '0')
  }

  /** `value` rendered with at least `width` digits. */
  function Padded(n: nat, width: nat): string {
    var d := Decimal(n);
    if |d| < width then Zeros(width - |d|) + d else d
  }

  function FormatId(prefix: string, n: nat): string {
    prefix + "-" + Padded(n, ID_DIGITS)
  }

  lemma {:induction false} ParseDecimalRoundTrip(n: nat)
    ensures ParseDecimal(Decimal(n)) == n
  {
    if n >= 10 {
      ParseDecimalRoundTrip(n / 10);
      var d := Decimal(n);
      assert d[..|d| - 1] == Decimal(n / 10);
    }
  }

  lemma {:induction false} ParseIgnoresLeadingZeros(k: nat, s: string)
    ensures ParseDecimal(Zeros(k) + s) == ParseDecimal(s)
    decreases |s|, k
  {
    var t := Zeros(k) + s;
    if s != "" {
      assert t[..|t| - 1] == Zeros(k) + s[..|s| - 1];
      ParseIgnoresLeadingZeros(k, s[..|s| - 1]);
    } else if k > 0 {
      assert t[..|t| - 1] == Zeros(k - 1) + s;
      ParseIgnoresLeadingZeros(k - 1, s);
    }
  }

  lemma ParsePadded(n: nat, width: nat)
    ensures ParseDecimal(Padded(n, width)) == n
  {
    var d := Decimal(n);
    ParseDecimalRoundTrip(n);
    if |d| < width {
      ParseIgnoresLeadingZeros(width - |d|, d);
    }
  }

  /** Two draws of one family never collide, whatever the number of digits. */
  lemma FormatIdInjective(prefix: string, m: nat, n: nat)
    requires FormatId(prefix, m) == FormatId(prefix, n)
    ensures m == n
  {
    ParsePadded(m, ID_DIGITS);
    ParsePadded(n, ID_DIGITS);
    assert FormatId(prefix, m)[|prefix| + 1..] == Padded(m, ID_DIGITS);
    assert FormatId(prefix, n)[|prefix| + 1..] == Padded(n, ID_DIGITS);
  }

  /** One counter per family; every family starts at `start`. */
  class SequentialIdGenerator {
    var next: map<string, nat>

    constructor (start: nat)
      requires start >= 1
      ensures next == map[INCIDENT_PREFIX := start, PLAN_PREFIX := start,
                          STEP_PREFIX := start, TOOL_CALL_PREFIX := start]
    {
      next := map[INCIDENT_PREFIX := start, PLAN_PREFIX := start,
                  STEP_PREFIX := start, TOOL_CALL_PREFIX := start];
    }

    method Take(prefix: string) returns (id: string)
      requires prefix in next
      modifies this
      ensures id == FormatId(prefix, old(next)[prefix])
      ensures next == old(next)[prefix := old(next)[prefix] + 1]
    {
      var value := next[prefix];
      next := next[prefix := value + 1];
      id := FormatId(prefix, value);
    }
  }
}
