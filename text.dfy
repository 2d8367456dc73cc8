/**
 * Character classes and string helpers shared by the indexer, the query processor and the
 * orchestrator: Python's `str.lower()` (ASCII letters), `str.isspace()`, the `in` substring test,
 * `' '.join`, `int(...)` on a run of decimal digits and `str(...)` of an integer.
 */
module Text {

  predicate IsUpper(c: char) { 'A' <= c <= 'Z' }

  predicate IsDigit(c: char) { '0' <= c <= '9' }

  predicate IsAsciiAlnum(c: char) { 'a' <= c <= 'z' || 'A' <= c <= 'Z' || IsDigit(c) }

  predicate IsLowerAlnum(c: char) { 'a' <= c <= 'z' || IsDigit(c) }

  /** The characters for which Python's `str.isspace()` holds; they are what `\s` and `str.split()` use. */
  predicate IsSpace(c: char) {
    var n := c as int;
    (9 <= n <= 13) || (28 <= n <= 32) || n == 0x85 || n == 0xA0 || n == 0x1680
    || (0x2000 <= n <= 0x200A) || n == 0x2028 || n == 0x2029 || n == 0x202F
    || n == 0x205F || n == 0x3000
  }

  function LowerChar(c: char): (r: char)
    ensures !IsUpper(r)
    ensures IsAsciiAlnum(r) <==> IsAsciiAlnum(c)
    ensures IsSpace(r) <==> IsSpace(c)
  {
    if IsUpper(c) then (c as int + 32) as char else c
  }

  /** `s.lower()`, restricted to ASCII letters. */
  function Lower(s: string): (r: string)
    ensures |r| == |s|
    ensures forall i :: 0 <= i < |s| ==> r[i] == LowerChar(s[i])
  {
    seq(|s|, i requires 0 <= i < |s| => LowerChar(s[i]))
  }

  /** `w in s` for strings: `w` occurs in `s` starting at position `i`. */
  predicate StartsAt(s: string, i: nat, w: string) {
    i + |w| <= |s| && s[i..i + |w|] == w
  }

  /** An occurrence of `w` at `i` puts its first two characters at `i` and `i + 1`. */
  lemma StartsAtChars(s: string, i: nat, w: string)
    ensures StartsAt(s, i, w) && |w| >= 1 ==> s[i] == w[0]
    ensures StartsAt(s, i, w) && |w| >= 2 ==> s[i + 1] == w[1]
  {
    if StartsAt(s, i, w) && |w| >= 1 {
      assert s[i..i + |w|][0] == s[i];
      if |w| >= 2 {
        assert s[i..i + |w|][1] == s[i + 1];
      }
    }
  }

  /** Python's `w in s` on strings. */
  predicate Contains(s: string, w: string) {
    exists i: nat :: i <= |s| && StartsAt(s, i, w)
  }

  /** Some keyword of `words` occurs in `s`. */
  predicate ContainsAny(s: string, words: seq<string>) {
    exists k :: 0 <= k < |words| && Contains(s, words[k])
  }

  /** A character of `w` that `s` lacks shows that `w` does not occur in `s`. */
  lemma NotContainedByChar(s: string, w: string, c: char)
    requires c in w && c !in s
    ensures !Contains(s, w)
  {
  }

  /** The distinct elements of a list, `set(xs)`. */
  function Elements(xs: seq<string>): set<string> {
    set x | x in xs
  }

  /** Lower-casing text that has no upper-case letter leaves it as it is. */
  lemma LowerOfLowerCase(s: string)
    requires forall i :: 0 <= i < |s| ==> !IsUpper(s[i])
    ensures Lower(s) == s
  {
  }

  /** `sep.join(parts)`. */
  function Join(parts: seq<string>, sep: string): string
  {
    if parts == [] then []
    else if |parts| == 1 then parts[0]
    else parts[0] + sep + Join(parts[1..], sep)
  }

  predicate AllDigits(s: string) {
    forall k :: 0 <= k < |s| ==> IsDigit(s[k])
  }

  function DigitValue(c: char): nat
    requires IsDigit(c)
  {
    c as int - '0' as int
  }

  function DigitChar(d: nat): (c: char)
    requires d < 10
    ensures IsDigit(c) && DigitValue(c) == d
  {
    ('0' as int + d) as char
  }

  /** `int(s)` for a non-empty run of ASCII decimal digits (leading zeros allowed). */
  function DigitsValue(s: string): nat
    requires AllDigits(s)
  {
    if s == [] then 0 else DigitsValue(s[..|s| - 1]) * 10 + DigitValue(s[|s| - 1])
  }

  /** `str(n)` for a natural number. */
  function NatToString(n: nat): (r: string)
    ensures r != [] && AllDigits(r)
  {
    if n < 10 then [DigitChar(n)] else NatToString(n / 10) + [DigitChar(n % 10)]
  }

  /** `str(i)` for an integer. */
  function IntToString(i: int): (r: string)
    ensures r != []
    ensures i < 0 <==> r[0] == '-'
  {
    if i < 0 then "-" + NatToString(-i) else NatToString(i)
  }

  /** Reading back a formatted number gives the number: `int(str(n)) == n`. */
  lemma {:induction false} DigitsRoundTrip(n: nat)
    ensures DigitsValue(NatToString(n)) == n
  {
    var s := NatToString(n);
    if n < 10 {
      assert s[..|s| - 1] == [];
    } else {
      assert s[..|s| - 1] == NatToString(n / 10);
      DigitsRoundTrip(n / 10);
    }
  }
}
