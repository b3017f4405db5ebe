/** The string operations the source calls: `toLowerCase` (restricted to
    ASCII letters), `includes`, and the decimal rendering of a number inside
    a template literal. */
module Text {

  /** ASCII `toLowerCase` of one character; every other character is kept. */
  function LowerChar(c: char): (d: char)
    ensures !('A' <= d <= 'Z')
    ensures 'a' <= c <= 'z' || !('A' <= c <= 'Z') ==> d == c
  {
    if 'A' <= c <= 'Z' then (c as int - 'A' as int + 'a' as int) as char else c
  }

  /** `s.toLowerCase()`, character by character. */
  function Lower(s: string): (r: string)
    ensures |r| == |s|
    ensures forall i | 0 <= i < |s| :: r[i] == LowerChar(s[i])
  {
    if s == [] then [] else [LowerChar(s[0])] + Lower(s[1..])
  }

  /** Lower-casing twice is lower-casing once. */
  lemma {:induction false} LowerIdempotent(s: string)
    ensures Lower(Lower(s)) == Lower(s)
  {
    if s != [] {
      LowerIdempotent(s[1..]);
      assert Lower(s)[1..] == Lower(s[1..]);
    }
  }

  /** `needle` sits in `s` starting at position `i`. */
  predicate OccursAt(s: string, needle: string, i: nat)
  {
    i + |needle| <= |s| && s[i..i + |needle|] == needle
  }

  /** `s.includes(needle)`: `needle` occurs in `s` at some position. */
  function Contains(s: string, needle: string): (r: bool)
    ensures r <==> exists i: nat :: OccursAt(s, needle, i)
    decreases |s|
  {
    if needle <= s then
      assert OccursAt(s, needle, 0);
      true
    else if s == [] then false
    else
      var r := Contains(s[1..], needle);
      assert r ==> OccursAt(s, needle, 1 + Witness(s[1..], needle)) by {
        if r {
          var k := Witness(s[1..], needle);
          assert s[k + 1..k + 1 + |needle|] == s[1..][k..k + |needle|];
        }
      }
      assert (exists i: nat :: OccursAt(s, needle, i)) ==> r by {
        if exists i: nat :: OccursAt(s, needle, i) {
          var k: nat :| OccursAt(s, needle, k);
          assert k != 0;
          assert s[1..][k - 1..k - 1 + |needle|] == s[k..k + |needle|];
          assert OccursAt(s[1..], needle, k - 1);
        }
      }
      r
  }

  /** A position at which `needle` occurs in `s`, when there is one. */
  ghost function Witness(s: string, needle: string): (i: nat)
    requires exists i: nat :: OccursAt(s, needle, i)
    ensures OccursAt(s, needle, i)
  {
    var i: nat :| OccursAt(s, needle, i); i
  }

  /** The empty string occurs everywhere: `s.includes("")` holds. */
  lemma ContainsEmpty(s: string)
    ensures Contains(s, "")
  {
    assert OccursAt(s, "", 0);
  }

  /** A needle whose first character is not in `s` does not occur in it. */
  lemma NotContained(s: string, needle: string)
    requires |needle| > 0 && needle[0] !in s
    ensures !Contains(s, needle)
  {
    if Contains(s, needle) {
      var i: nat :| OccursAt(s, needle, i);
      OccurrenceStartsWith(s, needle, i);
    }
  }

  lemma OccurrenceStartsWith(s: string, needle: string, i: nat)
    requires |needle| > 0 && OccursAt(s, needle, i)
    ensures needle[0] in s
  {
    assert s[i] == needle[0];
  }

  /** The case-insensitive substring test of the source,
      `s.toLowerCase().includes(term.toLowerCase())`. */
  function IncludesIgnoringCase(s: string, term: string): bool
  {
    Contains(Lower(s), Lower(term))
  }

  function DigitChar(d: nat): (c: char)
    requires d < 10
    ensures '0' <= c <= '9'
  {
    ('0' as int + d) as char
  }

  predicate IsDigits(s: string)
  {
    forall i | 0 <= i < |s| :: '0' <= s[i] <= '9'
  }

  /** The decimal rendering of a non-negative integer in a template literal. */
  function NatToString(n: nat): (s: string)
    ensures |s| >= 1 && IsDigits(s)
    ensures n >= 10 <==> |s| >= 2
    decreases n
  {
    if n < 10 then [DigitChar(n)] else NatToString(n / 10) + [DigitChar(n % 10)]
  }

  /** The decimal rendering of any integer, `-` first when negative. */
  function IntToString(n: int): (s: string)
    ensures |s| >= 1
    ensures n < 0 <==> s[0] == '-'
  {
    if n < 0 then "-" + NatToString(-n) else NatToString(n)
  }

  /** Reads a string of decimal digits back as a number. */
  function ParseNat(s: string): nat
    requires IsDigits(s)
  {
    if s == [] then 0
    else
      10 * ParseNat(s[..|s| - 1]) + (s[|s| - 1] as int - '0' as int)
  }

  /** Rendering a number and reading it back gives the number. */
  lemma {:induction false} ParseNatToString(n: nat)
    ensures ParseNat(NatToString(n)) == n
    decreases n
  {
    if n >= 10 {
      ParseNatToString(n / 10);
      var s := NatToString(n);
      assert s[..|s| - 1] == NatToString(n / 10);
    }
  }

  /** Different numbers render differently. */
  lemma NatToStringInjective(m: nat, n: nat)
    requires NatToString(m) == NatToString(n)
    ensures m == n
  {
    ParseNatToString(m);
    ParseNatToString(n);
  }
}
