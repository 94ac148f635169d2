/** The string primitives the source leans on: `str.lower()` (ASCII only),
    the `in` substring test, `startswith`/`endswith`, and `str.strip()`. */
module Text {

  /** `c.lower()` restricted to ASCII letters. */
  function LowerChar(c: char): char {
    if 'A' <= c <= 'Z' then (c as int + 32) as char else c
  }

  function Lower(s: string): (r: string)
    ensures |r| == |s|
    ensures forall i :: 0 <= i < |s| ==> r[i] == LowerChar(s[i])
  {
    if s == [] then [] else [LowerChar(s[0])] + Lower(s[1..])
  }

  predicate StartsWith(s: string, prefix: string) {
    |prefix| <= |s| && s[..|prefix|] == prefix
  }

  /** Python's `needle in hay` on strings, scanning left to right. */
  predicate Contains(hay: string, needle: string)
    decreases |hay|
  {
    StartsWith(hay, needle) || (hay != [] && Contains(hay[1..], needle))
  }

  /** `needle` sits in `hay` at index `i`. */
  predicate WindowAt(hay: string, needle: string, i: int) {
    0 <= i <= |hay| - |needle| && hay[i..i + |needle|] == needle
  }

  /** The scan finds `needle` exactly when some window of `hay` equals it. */
  lemma {:induction false} ContainsIffWindow(hay: string, needle: string)
    ensures Contains(hay, needle) <==> exists i :: WindowAt(hay, needle, i)
    decreases |hay|
  {
    if StartsWith(hay, needle) {
      assert WindowAt(hay, needle, 0);
    } else if hay != [] {
      ContainsIffWindow(hay[1..], needle);
      if Contains(hay[1..], needle) {
        var i :| WindowAt(hay[1..], needle, i);
        assert WindowAt(hay, needle, i + 1);
      }
      if exists i :: WindowAt(hay, needle, i) {
        var i :| WindowAt(hay, needle, i);
        assert i > 0;
        assert WindowAt(hay[1..], needle, i - 1);
      }
    }
  }

  /** Any string occurring in a suffix of `hay` occurs in `hay`. */
  lemma {:induction false} ContainsInSuffix(hay: string, k: nat, needle: string)
    requires k <= |hay| && Contains(hay[k..], needle)
    ensures Contains(hay, needle)
    decreases k
  {
    if k > 0 {
      assert hay[1..][k - 1..] == hay[k..];
      ContainsInSuffix(hay[1..], k - 1, needle);
    }
  }

  /** `c.isspace()`: the characters Python's `str.strip()` and the regular
      expression class `\s` both treat as whitespace. */
  predicate IsSpace(c: char) {
    c == ' ' || c == '\t' || c == '\n' || c == '\r' || c == '\U{0B}' || c == '\U{0C}'
    || ('\U{1C}' <= c <= '\U{1F}') || c == '\U{85}' || c == '\U{A0}' || c == '\U{1680}'
    || ('\U{2000}' <= c <= '\U{200A}') || c == '\U{2028}' || c == '\U{2029}'
    || c == '\U{202F}' || c == '\U{205F}' || c == '\U{3000}'
  }

  /** Number of whitespace characters at the start of `s`. */
  function LeadingSpaces(s: string): (k: nat)
    ensures k <= |s|
    ensures k == |s| || !IsSpace(s[k])
  {
    if s != [] && IsSpace(s[0]) then 1 + LeadingSpaces(s[1..]) else 0
  }

  /** Every character of the leading run is whitespace. */
  lemma {:induction false} LeadingSpacesAreSpaces(s: string, i: nat)
    requires i < LeadingSpaces(s)
    ensures IsSpace(s[i])
    decreases i
  {
    if i > 0 {
      LeadingSpacesAreSpaces(s[1..], i - 1);
    }
  }

  /** Number of whitespace characters at the end of `s`. */
  function TrailingSpaces(s: string): (k: nat)
    ensures k <= |s|
    ensures k == |s| || !IsSpace(s[|s| - k - 1])
  {
    if s != [] && IsSpace(s[|s| - 1]) then 1 + TrailingSpaces(s[..|s| - 1]) else 0
  }

  /** `s.strip()`: what is left once the whitespace runs at both ends are cut. */
  function Trim(s: string): (r: string)
    ensures r == [] || (!IsSpace(r[0]) && !IsSpace(r[|r| - 1]))
    ensures |r| <= |s|
  {
    var t := s[LeadingSpaces(s)..];
    t[..|t| - TrailingSpaces(t)]
  }

  /** A string with no whitespace at either end is left as it is. */
  lemma TrimOfTrimmed(s: string)
    requires s == [] || (!IsSpace(s[0]) && !IsSpace(s[|s| - 1]))
    ensures Trim(s) == s
  {
  }

  /** The decimal digits of `n`, as an f-string prints them. */
  function NatToDecimal(n: nat): (r: string)
    ensures r != []
  {
    if n < 10 then ["0123456789"[n]] else NatToDecimal(n / 10) + ["0123456789"[n % 10]]
  }
}
