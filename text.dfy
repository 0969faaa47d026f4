/** Kotlin's `isBlank`, `isNotBlank` and `trim` on strings, which every form of the
    application uses to reject empty names and titles. */
module Text {

  /** Kotlin's `Char.isWhitespace()` on the JVM: `Character.isWhitespace` (the ASCII
      controls TAB..CR and FS..US, and the Unicode space, line and paragraph separators
      other than the no-break ones) or `Character.isSpaceChar` (which adds the no-break
      spaces U+00A0, U+2007 and U+202F). */
  predicate IsWhitespace(c: char) {
    || ('\t' <= c <= '\r')                       // U+0009 .. U+000D
    || ('\U{1C}' <= c <= '\U{20}')               // FS, GS, RS, US and SPACE
    || c == '\U{A0}' || c == '\U{1680}'
    || ('\U{2000}' <= c <= '\U{200A}')
    || c == '\U{2028}' || c == '\U{2029}'
    || c == '\U{202F}' || c == '\U{205F}' || c == '\U{3000}'
  }

  /** `CharSequence.isBlank()`: empty, or whitespace only. */
  predicate IsBlank(s: string) {
    forall i :: 0 <= i < |s| ==> IsWhitespace(s[i])
  }

  /** The number of whitespace characters at the start of `s`. */
  function LeadingSpace(s: string): (n: nat)
    ensures n <= |s|
    ensures IsBlank(s[..n])
    ensures n < |s| ==> !IsWhitespace(s[n])
  {
    if s == [] || !IsWhitespace(s[0]) then 0
    else
      var m := LeadingSpace(s[1..]);
      assert s[1..][..m] == s[1..m + 1];
      1 + m
  }

  /** The number of whitespace characters at the end of `s`. */
  function TrailingSpace(s: string): (n: nat)
    ensures n <= |s|
    ensures IsBlank(s[|s| - n..])
    ensures n < |s| ==> !IsWhitespace(s[|s| - n - 1])
  {
    if s == [] || !IsWhitespace(s[|s| - 1]) then 0
    else
      var m := TrailingSpace(s[..|s| - 1]);
      assert s[..|s| - 1][|s| - 1 - m..] == s[|s| - 1 - m..|s| - 1];
      1 + m
  }

  /** Kotlin's `String.trim()`: `s` without its leading and trailing whitespace. The
      result is the middle part of `s` that starts and ends with a non-whitespace
      character, and it is empty exactly when `s` is blank. */
  function Trim(s: string): (r: string)
    ensures LeadingSpace(s) + |r| <= |s|
    ensures r == s[LeadingSpace(s)..LeadingSpace(s) + |r|]
    ensures IsBlank(s[..LeadingSpace(s)]) && IsBlank(s[LeadingSpace(s) + |r|..])
    ensures r == [] <==> IsBlank(s)
    ensures r != [] ==> !IsWhitespace(r[0]) && !IsWhitespace(r[|r| - 1])
  {
    var a := LeadingSpace(s);
    var rest := s[a..];
    var b := TrailingSpace(rest);
    var r := rest[..|rest| - b];
    assert rest[|rest| - b..] == s[a + |r|..];
    assert r == [] ==> IsBlank(s) by {
      if r == [] { BlankJoin(s, a, a); }
    }
    r
  }

  /** A string made of a blank prefix, a blank middle and a blank suffix is blank. */
  lemma BlankJoin(s: string, a: nat, b: nat)
    requires a <= b <= |s|
    requires IsBlank(s[..a]) && IsBlank(s[a..b]) && IsBlank(s[b..])
    ensures IsBlank(s)
  {
    forall i | 0 <= i < |s| ensures IsWhitespace(s[i]) {
      if i < a { assert s[..a][i] == s[i]; }
      else if i < b { assert s[a..b][i - a] == s[i]; }
      else { assert s[b..][i - b] == s[i]; }
    }
  }

  /** Trimming a second time changes nothing. */
  lemma {:induction false} TrimIdempotent(s: string)
    ensures Trim(Trim(s)) == Trim(s)
  {
    var r := Trim(s);
    if r != [] {
      assert LeadingSpace(r) == 0;
      assert TrailingSpace(r[0..]) == 0 by { assert r[0..] == r; }
      assert r[0..][..|r|] == r;
    }
  }

  /** Trimming keeps a name usable: the trimmed text is blank exactly when the input is. */
  lemma TrimKeepsBlankness(s: string)
    ensures IsBlank(Trim(s)) <==> IsBlank(s)
  {
  }

  /** `isNotBlank()`: some character is not whitespace, which is exactly a text that
      does not trim to nothing. */
  predicate IsNotBlank(s: string)
    ensures IsNotBlank(s) <==> Trim(s) != []
  {
    !IsBlank(s)
  }
}
