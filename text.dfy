/** String helpers: decimal rendering of an index and ordinal case-insensitive comparison. */
module Text {

  /** The character of one decimal digit. */
  function Digit(d: nat): (c: char)
    requires d < 10
    ensures '0' <= c <= '9'
  {
    (('0' as int) + d) as char
  }

  /** The value of a decimal digit character. */
  function DigitValue(c: char): nat {
    if '0' <= c <= '9' then (c as int) - ('0' as int) else 0
  }

  /** The number a string of decimal digits denotes, most significant digit first. */
  function DecimalValue(s: string): nat {
    if s == [] then 0 else 10 * DecimalValue(s[..|s| - 1]) + DigitValue(s[|s| - 1])
  }

  /**
   * The decimal form of a non-negative int, as string interpolation renders an
   * index: digits only, no leading zero, and denoting `n`.
   */
  function DecimalString(n: nat): (s: string)
    ensures |s| >= 1
    ensures forall i :: 0 <= i < |s| ==> '0' <= s[i] <= '9'
    ensures s[0] == '0' <==> n == 0
    ensures n >= 10 <==> |s| >= 2
    ensures DecimalValue(s) == n
  {
    if n < 10 then [Digit(n)]
    else
      var prefix := DecimalString(n / 10);
      assert (prefix + [Digit(n % 10)])[..|prefix|] == prefix;
      prefix + [Digit(n % 10)]
  }

  /** Distinct indices render as distinct strings. */
  lemma DecimalStringInjective(a: nat, b: nat)
    requires DecimalString(a) == DecimalString(b)
    ensures a == b
  {
    assert a == DecimalValue(DecimalString(a)) == DecimalValue(DecimalString(b)) == b;
  }

  /** Upper-case mapping of one character (ASCII letters only). */
  function UpperAscii(c: char): char {
    if 'a' <= c <= 'z' then (c as int - 32) as char else c
  }

  /** The upper-case form of a whole string. */
  function UpperString(s: string): string {
    seq(|s|, i requires 0 <= i < |s| => UpperAscii(s[i]))
  }

  /** Every entry of a list upper-cased. */
  function UpperAll(list: seq<string>): seq<string> {
    seq(|list|, i requires 0 <= i < |list| => UpperString(list[i]))
  }

  /** Ordinal, case-insensitive equality (StringComparer.OrdinalIgnoreCase). */
  predicate EqualsIgnoreCase(a: string, b: string) {
    |a| == |b| && forall i :: 0 <= i < |a| ==> UpperAscii(a[i]) == UpperAscii(b[i])
  }

  /** `list.Contains(s, StringComparer.OrdinalIgnoreCase)`. */
  predicate ContainsIgnoreCase(list: seq<string>, s: string) {
    exists e :: e in list && EqualsIgnoreCase(e, s)
  }

  /** Upper-casing a string does not change what it equals ignoring case. */
  lemma UpperStringEquivalent(a: string, b: string)
    ensures EqualsIgnoreCase(UpperString(a), b) <==> EqualsIgnoreCase(a, b)
    ensures EqualsIgnoreCase(a, UpperString(a))
  {
  }

  /** Equality ignoring case is equality of the upper-case forms. */
  lemma EqualsIgnoreCaseIffUpper(a: string, b: string)
    ensures EqualsIgnoreCase(a, b) <==> UpperString(a) == UpperString(b)
  {
    if UpperString(a) == UpperString(b) {
      forall i | 0 <= i < |a|
        ensures UpperAscii(a[i]) == UpperAscii(b[i])
      {
        assert UpperString(a)[i] == UpperString(b)[i];
      }
    }
  }

  /** A list contains a string ignoring case exactly when some entry has the same upper-case form. */
  lemma ContainsIgnoreCaseUpper(list: seq<string>, s: string)
    ensures ContainsIgnoreCase(list, s) <==> exists k :: 0 <= k < |list| && UpperString(list[k]) == UpperString(s)
  {
    forall k | 0 <= k < |list|
      ensures EqualsIgnoreCase(list[k], s) <==> UpperString(list[k]) == UpperString(s)
    {
      EqualsIgnoreCaseIffUpper(list[k], s);
    }
    if ContainsIgnoreCase(list, s) {
      var e :| e in list && EqualsIgnoreCase(e, s);
      var k :| 0 <= k < |list| && list[k] == e;
    }
  }
}
