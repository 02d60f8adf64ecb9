/** The parts of Python's `str` that the agents use: `strip()`, `upper()`, `lower()`,
    `isalnum()`, the `in` substring test and decimal formatting of a natural number.
    Case mapping and the alphanumeric test are the ASCII ones. */
module PyStrings {

  /** Python's `str.isspace()` for one character. */
  predicate IsSpace(c: char) {
    ('\t' <= c <= '\r') || ('\U{1c}' <= c <= '\U{20}') || c == '\U{85}' || c == '\U{a0}'
    || c == '\U{1680}' || ('\U{2000}' <= c <= '\U{200a}') || c == '\U{2028}' || c == '\U{2029}'
    || c == '\U{202f}' || c == '\U{205f}' || c == '\U{3000}'
  }

  predicate AllSpace(s: string) {
    forall i :: 0 <= i < |s| ==> IsSpace(s[i])
  }

  /** `s.rstrip()`: drops the trailing whitespace and nothing else. */
  function RStrip(s: string): (r: string)
    ensures |r| <= |s| && r == s[..|r|]
    ensures AllSpace(s[|r|..])
    ensures r == [] || !IsSpace(r[|r| - 1])
  {
    if |s| > 0 && IsSpace(s[|s| - 1]) then RStrip(s[..|s| - 1]) else s
  }

  /** `s.strip()`: the leading whitespace is dropped one character at a time, then the
      trailing whitespace. */
  function Strip(s: string): (r: string)
    ensures |r| <= |s|
    ensures r == [] || (!IsSpace(r[0]) && !IsSpace(r[|r| - 1]))
    ensures r == [] <==> AllSpace(s)
  {
    if |s| > 0 && IsSpace(s[0]) then Strip(s[1..])
    else
      var r := RStrip(s);
      assert r == [] ==> AllSpace(s) by {
        if r == [] { assert s[|r|..] == s; }
      }
      r
  }

  /** The number of whitespace characters `s` starts with. */
  function LeadingSpace(s: string): (n: nat)
    ensures n <= |s|
  {
    if |s| > 0 && IsSpace(s[0]) then 1 + LeadingSpace(s[1..]) else 0
  }

  /** The leading whitespace is whitespace. */
  lemma {:induction false} LeadingSpaceIsSpace(s: string)
    ensures AllSpace(s[..LeadingSpace(s)])
    decreases |s|
  {
    if |s| > 0 && IsSpace(s[0]) {
      var t := s[1..];
      LeadingSpaceIsSpace(t);
      var n := LeadingSpace(t);
      forall m | 0 <= m < n + 1 ensures IsSpace(s[m]) {
        if m > 0 {
          assert s[m] == t[..n][m - 1];
        }
      }
    }
  }

  /** `strip()` is `rstrip()` of what follows the leading whitespace. */
  lemma {:induction false} StripSkipsLeading(s: string)
    ensures Strip(s) == RStrip(s[LeadingSpace(s)..])
    decreases |s|
  {
    if |s| > 0 && IsSpace(s[0]) {
      var t := s[1..];
      StripSkipsLeading(t);
      assert t[LeadingSpace(t)..] == s[LeadingSpace(s)..];
    } else {
      assert s[0..] == s;
    }
  }

  /** Slicing a suffix is slicing the whole string further along. */
  lemma SuffixSlices(s: string, n: nat, k: nat)
    requires n + k <= |s|
    ensures s[n..][..k] == s[n..n + k]
    ensures s[n..][k..] == s[n + k..]
  {
  }

  /** What `strip()` keeps is the slice after the leading whitespace, and only whitespace
      follows it. */
  lemma StripKeepsInnerSlice(s: string)
    ensures var n := LeadingSpace(s);
            n + |Strip(s)| <= |s| && Strip(s) == s[n..n + |Strip(s)|]
            && AllSpace(s[..n]) && AllSpace(s[n + |Strip(s)|..])
  {
    LeadingSpaceIsSpace(s);
    StripSkipsLeading(s);
    var n := LeadingSpace(s);
    var r := RStrip(s[n..]);
    SuffixSlices(s, n, |r|);
  }

  /** A string that `strip()` leaves alone, so stripping twice is stripping once. */
  lemma StripIdempotent(s: string)
    ensures Strip(Strip(s)) == Strip(s)
  {
    var t := Strip(s);
    if t != [] {
      assert !IsSpace(t[0]);
      assert !IsSpace(t[|t| - 1]);
      assert RStrip(t) == t;
    }
  }

  /** A string with no whitespace at either end is its own strip. */
  lemma StripOfTrimmed(s: string)
    requires s != [] && !IsSpace(s[0]) && !IsSpace(s[|s| - 1])
    ensures Strip(s) == s
  {
    assert RStrip(s) == s;
  }

  function UpperChar(c: char): char {
    if 'a' <= c <= 'z' then (c as int - 32) as char else c
  }

  function LowerChar(c: char): char {
    if 'A' <= c <= 'Z' then (c as int + 32) as char else c
  }

  /** `s.upper()`, ASCII letters only. */
  function Upper(s: string): (r: string)
    ensures |r| == |s|
  {
    seq(|s|, i requires 0 <= i < |s| => UpperChar(s[i]))
  }

  /** `s.lower()`, ASCII letters only. */
  function Lower(s: string): (r: string)
    ensures |r| == |s|
  {
    seq(|s|, i requires 0 <= i < |s| => LowerChar(s[i]))
  }

  /** Lower-casing first upper-casing a string gives its lower-case form. */
  lemma LowerOfUpper(s: string)
    ensures Lower(Upper(s)) == Lower(s)
  {
    forall i | 0 <= i < |s| ensures Lower(Upper(s))[i] == Lower(s)[i] {
      assert Upper(s)[i] == UpperChar(s[i]);
    }
  }

  /** Upper-casing changes letters only, never whitespace. */
  lemma UpperCharKeepsSpace(c: char)
    ensures IsSpace(UpperChar(c)) == IsSpace(c)
  {
  }

  /** Upper-casing works character by character, so it commutes with slicing. */
  lemma UpperSlices(s: string, k: nat)
    requires k <= |s|
    ensures Upper(s)[..k] == Upper(s[..k])
    ensures Upper(s)[k..] == Upper(s[k..])
  {
  }

  /** Upper-casing commutes with `rstrip()`. */
  lemma {:induction false} UpperCommutesWithRStrip(s: string)
    ensures RStrip(Upper(s)) == Upper(RStrip(s))
    decreases |s|
  {
    if |s| > 0 {
      UpperCharKeepsSpace(s[|s| - 1]);
      UpperSlices(s, |s| - 1);
      if IsSpace(s[|s| - 1]) {
        UpperCommutesWithRStrip(s[..|s| - 1]);
      }
    }
  }

  /** Upper-casing does not change which characters are whitespace, so it commutes with `strip()`. */
  lemma {:induction false} UpperCommutesWithStrip(s: string)
    ensures Strip(Upper(s)) == Upper(Strip(s))
    decreases |s|
  {
    if |s| > 0 {
      UpperCharKeepsSpace(s[0]);
      UpperSlices(s, 1);
      if IsSpace(s[0]) {
        UpperCommutesWithStrip(s[1..]);
      } else {
        UpperCommutesWithRStrip(s);
      }
    } else {
      UpperCommutesWithRStrip(s);
    }
  }

  lemma UpperIdempotent(s: string)
    ensures Upper(Upper(s)) == Upper(s)
  {
    forall i | 0 <= i < |s| ensures Upper(Upper(s))[i] == Upper(s)[i] {
      assert Upper(s)[i] == UpperChar(s[i]);
    }
  }

  /** A string without lower-case letters is its own upper-case form. */
  lemma UpperOfUpperCase(s: string)
    requires forall i :: 0 <= i < |s| ==> !('a' <= s[i] <= 'z')
    ensures Upper(s) == s
  {
  }

  predicate IsAsciiAlnum(c: char) {
    ('a' <= c <= 'z') || ('A' <= c <= 'Z') || ('0' <= c <= '9')
  }

  /** `s.isalnum()`: non-empty and every character a letter or a digit (ASCII). */
  predicate IsAlnum(s: string) {
    |s| > 0 && forall i :: 0 <= i < |s| ==> IsAsciiAlnum(s[i])
  }

  /** `sub in s` for two strings, by scanning the start positions. */
  function Contains(s: string, sub: string): bool
    decreases |s|
  {
    if |sub| <= |s| && s[..|sub|] == sub then true
    else if |s| == 0 then false
    else Contains(s[1..], sub)
  }

  /** `sub` occurs in `s` starting at position `i`. */
  predicate OccursAt(s: string, sub: string, i: int) {
    0 <= i <= |s| - |sub| && s[i..i + |sub|] == sub
  }

  /** The scan agrees with the definition "some slice of `s` equals `sub`". */
  lemma {:induction false} ContainsIff(s: string, sub: string)
    ensures Contains(s, sub) <==> exists i :: OccursAt(s, sub, i)
  {
    if |sub| <= |s| && s[..|sub|] == sub {
      assert OccursAt(s, sub, 0);
    } else if |s| == 0 {
    } else {
      ContainsIff(s[1..], sub);
      if exists i :: OccursAt(s, sub, i) {
        var i :| OccursAt(s, sub, i);
        assert i != 0;
        assert s[1..][i - 1..i - 1 + |sub|] == s[i..i + |sub|];
        assert OccursAt(s[1..], sub, i - 1);
      }
      if Contains(s[1..], sub) {
        var i :| OccursAt(s[1..], sub, i);
        assert s[1..][i..i + |sub|] == s[i + 1..i + 1 + |sub|];
        assert OccursAt(s, sub, i + 1);
      }
    }
  }

  function DigitChar(d: nat): char
    requires d < 10
  {
    ('0' as int + d) as char
  }

  /** `str(n)` for a natural number: its decimal digits, most significant first. */
  function NatToString(n: nat): (r: string)
    ensures |r| > 0
    ensures forall i :: 0 <= i < |r| ==> '0' <= r[i] <= '9'
    ensures n >= 10 ==> |r| >= 2
  {
    if n < 10 then [DigitChar(n)] else NatToString(n / 10) + [DigitChar(n % 10)]
  }

  /** Different numbers print differently. */
  lemma {:induction false} NatToStringInjective(a: nat, b: nat)
    requires NatToString(a) == NatToString(b)
    ensures a == b
  {
    if a >= 10 && b >= 10 {
      var sa, sb := NatToString(a), NatToString(b);
      assert sa[|sa| - 1] == DigitChar(a % 10) && sb[|sb| - 1] == DigitChar(b % 10);
      assert sa[..|sa| - 1] == NatToString(a / 10);
      assert sb[..|sb| - 1] == NatToString(b / 10);
      NatToStringInjective(a / 10, b / 10);
    }
  }
}
