/**
 * Scope identifiers. The builder names every scope with an f-string of the
 * form `s{counter}_{tag}`: the global scope is `s0__main__` and every other
 * scope takes the current value of the builder's counter. This module gives
 * that naming a precise meaning and proves that the counter can be read back
 * out of an identifier, so that two scopes created with different counter
 * values can never share an identifier, whatever their tags are.
 */
module ScopeIds {

  predicate IsDigit(c: char) {
    '0' <= c <= '9'
  }

  predicate AllDigits(s: string) {
    forall i :: 0 <= i < |s| ==> IsDigit(s[i])
  }

  function DigitChar(d: nat): (c: char)
    requires d < 10
    ensures IsDigit(c)
  {
    ('0' as int + d) as char
  }

  function DigitValue(c: char): (d: nat)
    requires IsDigit(c)
    ensures d < 10
  {
    c as int - '0' as int
  }

  /** Python's `str(n)` for a non-negative integer: decimal, no leading zeros. */
  function Decimal(n: nat): (s: string)
    ensures |s| >= 1
    ensures AllDigits(s)
    ensures n > 0 ==> s[0] != '0'
    decreases n
  {
    if n < 10 then [DigitChar(n)] else Decimal(n / 10) + [DigitChar(n % 10)]
  }

  /** The number a string of decimal digits denotes. */
  function DecimalValue(s: string): nat
    requires AllDigits(s)
    decreases |s|
  {
    if s == [] then 0 else 10 * DecimalValue(s[..|s| - 1]) + DigitValue(s[|s| - 1])
  }

  lemma {:induction false} DecimalRoundTrip(n: nat)
    ensures DecimalValue(Decimal(n)) == n
    decreases n
  {
    if n >= 10 {
      var s := Decimal(n);
      assert s[..|s| - 1] == Decimal(n / 10);
      DecimalRoundTrip(n / 10);
    }
  }

  /** The longest prefix of `s` made of decimal digits. */
  function LeadingDigits(s: string): (p: string)
    ensures AllDigits(p)
    decreases |s|
  {
    if s == [] || !IsDigit(s[0]) then [] else [s[0]] + LeadingDigits(s[1..])
  }

  lemma {:induction false} LeadingDigitsStopAt(d: string, rest: string)
    requires AllDigits(d)
    requires rest != [] && !IsDigit(rest[0])
    ensures LeadingDigits(d + rest) == d
    decreases |d|
  {
    if d != [] {
      assert (d + rest)[1..] == d[1..] + rest;
      LeadingDigitsStopAt(d[1..], rest);
    }
  }

  /** `f"s{n}_{tag}"`, the identifier the builder gives the scope it creates with counter value `n`. */
  function MakeId(n: nat, tag: string): string {
    "s" + Decimal(n) + "_" + tag
  }

  /** Reads the counter back out of an identifier; 0 for anything not shaped like one. */
  function CounterOf(id: string): nat {
    if |id| > 0 && id[0] == 's' then DecimalValue(LeadingDigits(id[1..])) else 0
  }

  /** The counter is recoverable from every identifier the builder makes. */
  lemma CounterOfMakeId(n: nat, tag: string)
    ensures CounterOf(MakeId(n, tag)) == n
  {
    var id := MakeId(n, tag);
    assert id[1..] == Decimal(n) + ("_" + tag);
    LeadingDigitsStopAt(Decimal(n), "_" + tag);
    DecimalRoundTrip(n);
  }

  /** Identifiers made from different counters differ, whatever their tags. */
  lemma MakeIdInjective(n: nat, tag: string, m: nat, tag': string)
    requires MakeId(n, tag) == MakeId(m, tag')
    ensures n == m && tag == tag'
  {
    CounterOfMakeId(n, tag);
    CounterOfMakeId(m, tag');
    var k := |Decimal(n)| + 2;
    assert tag == MakeId(n, tag)[k..];
    assert tag' == MakeId(m, tag')[k..];
  }

  /** The identifier of the global scope. */
  const MainId: string := "s0__main__"

  /** The global scope's identifier follows the same naming scheme, with counter 0. */
  lemma MainIdIsCounterZero()
    ensures MainId == MakeId(0, "_main__")
    ensures CounterOf(MainId) == 0
  {
    CounterOfMakeId(0, "_main__");
  }
}
