/** Reading the amount a user types: the pattern `^\d*\.?\d+$` that the add form checks,
    and Kotlin's `String.toDoubleOrNull()` on the plain decimal notation. Amounts are exact
    `real`s, so no rounding takes place. */
module Numbers {
  import opened Wrappers

  /** `\d` of java.util.regex: an ASCII digit. */
  predicate IsDigit(c: char) {
    '0' <= c <= '9'
  }

  predicate AllDigits(s: string) {
    forall i :: 0 <= i < |s| ==> IsDigit(s[i])
  }

  /** Some digit of `s` is one of 1..9. */
  predicate HasNonZeroDigit(s: string) {
    exists i :: 0 <= i < |s| && '1' <= s[i] <= '9'
  }

  function DigitValue(c: char): (d: nat)
    requires IsDigit(c)
    ensures d <= 9
    ensures d == 0 <==> c == '0'
  {
    (c as int) - ('0' as int)
  }

  /** The length of the run of digits that `s` starts with. */
  function DigitRun(s: string): (n: nat)
    ensures n <= |s|
    ensures AllDigits(s[..n])
    ensures n < |s| ==> !IsDigit(s[n])
  {
    if s == [] || !IsDigit(s[0]) then 0
    else
      var m := DigitRun(s[1..]);
      assert s[..m + 1] == [s[0]] + s[1..][..m];
      1 + m
  }

  /** A string that is digits up to `a` and then a non-digit starts with exactly `a` digits. */
  lemma DigitRunExact(s: string, a: nat)
    requires a <= |s| && AllDigits(s[..a])
    requires a < |s| ==> !IsDigit(s[a])
    ensures DigitRun(s) == a
  {
  }

  /** Whole-number value of a digit string, most significant digit first. */
  function WholeValue(ds: string): (v: nat)
    requires AllDigits(ds)
  {
    if ds == [] then 0 else 10 * WholeValue(ds[..|ds| - 1]) + DigitValue(ds[|ds| - 1])
  }

  /** Value of the digits written after a decimal point. */
  function FractionValue(ds: string): (v: real)
    requires AllDigits(ds)
    ensures 0.0 <= v < 1.0
  {
    if ds == [] then 0.0 else (DigitValue(ds[0]) as real + FractionValue(ds[1..])) / 10.0
  }

  /** A digit string denotes a positive whole number exactly when one of its digits is not 0. */
  lemma {:induction false} WholeValuePositive(ds: string)
    requires AllDigits(ds)
    ensures WholeValue(ds) > 0 <==> HasNonZeroDigit(ds)
  {
    if ds != [] {
      var init := ds[..|ds| - 1];
      WholeValuePositive(init);
      if HasNonZeroDigit(init) {
        var i :| 0 <= i < |init| && '1' <= init[i] <= '9';
        assert ds[i] == init[i];
      }
      if HasNonZeroDigit(ds) {
        var i :| 0 <= i < |ds| && '1' <= ds[i] <= '9';
        if i < |init| { assert init[i] == ds[i]; }
      }
    }
  }

  /** Digits after the point denote a positive fraction exactly when one of them is not 0. */
  lemma {:induction false} FractionValuePositive(ds: string)
    requires AllDigits(ds)
    ensures FractionValue(ds) > 0.0 <==> HasNonZeroDigit(ds)
  {
    if ds != [] {
      var tail := ds[1..];
      FractionValuePositive(tail);
      if HasNonZeroDigit(tail) {
        var i :| 0 <= i < |tail| && '1' <= tail[i] <= '9';
        assert ds[i + 1] == tail[i];
      }
      if HasNonZeroDigit(ds) {
        var i :| 0 <= i < |ds| && '1' <= ds[i] <= '9';
        if i > 0 { assert tail[i - 1] == ds[i]; }
      }
    }
  }

  /** The regular expression `^\d*\.?\d+$` read literally: `s` splits at `a <= b` into
      digits `s[..a]`, an optional point `s[a..b]` and at least one digit `s[b..]`. */
  predicate AmountSplit(s: string, a: nat, b: nat) {
    && a <= b < |s|
    && AllDigits(s[..a])
    && (b == a || (b == a + 1 && s[a] == '.'))
    && AllDigits(s[b..])
  }

  /** The matcher for `^\d*\.?\d+$`: the leading digits, then either the end of the
      string (after at least one digit) or a point followed by at least one digit. */
  predicate MatchesAmountPattern(s: string) {
    var k := DigitRun(s);
    if k == |s| then k > 0
    else s[k] == '.' && k + 1 < |s| && AllDigits(s[k + 1..])
  }

  /** The matcher accepts exactly the strings the regular expression describes. */
  lemma AmountPatternIsRegex(s: string)
    ensures MatchesAmountPattern(s) <==> exists a: nat, b: nat :: AmountSplit(s, a, b)
  {
    var k := DigitRun(s);
    if MatchesAmountPattern(s) {
      if k == |s| {
        assert s[0..] == s;
        assert AmountSplit(s, 0, 0);
      } else {
        assert AmountSplit(s, k, k + 1);
      }
    }
    if exists a: nat, b: nat :: AmountSplit(s, a, b) {
      var a: nat, b: nat :| AmountSplit(s, a, b);
      if b == a {
        assert AllDigits(s) by {
          forall i | 0 <= i < |s| ensures IsDigit(s[i]) {
            if i < a { assert s[..a][i] == s[i]; } else { assert s[b..][i - b] == s[i]; }
          }
        }
        assert s[..|s|] == s;
        DigitRunExact(s, |s|);
      } else {
        DigitRunExact(s, a);
      }
    }
  }

  /** The unsigned decimal notation accepted by `toDoubleOrNull`: `Digits`, `Digits.`,
      `Digits.Digits` or `.Digits`. */
  function ParseUnsigned(s: string): (r: Option<real>)
    ensures r.Some? ==> r.value >= 0.0
  {
    var k := DigitRun(s);
    if k == |s| then
      if k > 0 then Some(WholeValue(s) as real) else None
    else if s[k] != '.' then None
    else
      var frac := s[k + 1..];
      if AllDigits(frac) && (k > 0 || |frac| > 0)
      then Some(WholeValue(s[..k]) as real + FractionValue(frac))
      else None
  }

  /** Kotlin's `String.toDoubleOrNull()` on decimal notation with an optional sign;
      `null` is `None`. */
  function ParseDouble(s: string): (r: Option<real>)
    ensures s == [] ==> r.None?
    ensures r.Some? && r.value < 0.0 ==> s[0] == '-'
  {
    if s != [] && s[0] == '-' then
      match ParseUnsigned(s[1..])
      case Some(v) => Some(-v)
      case None => None
    else if s != [] && s[0] == '+' then ParseUnsigned(s[1..])
    else ParseUnsigned(s)
  }

  /** Every string the amount pattern accepts parses, to a value that is not negative. */
  lemma PatternParses(s: string)
    requires MatchesAmountPattern(s)
    ensures ParseDouble(s).Some? && ParseDouble(s).value >= 0.0
  {
  }

  /** The add form's amount check: the pattern matches and the parsed value is positive.
      A valid amount parses to a positive number and starts with a digit or a point, so
      a sign is never accepted. */
  predicate IsAmountValid(s: string)
    ensures IsAmountValid(s) ==> ParseDouble(s).Some? && ParseDouble(s).value > 0.0
    ensures IsAmountValid(s) ==> s != [] && (IsDigit(s[0]) || s[0] == '.')
  {
    MatchesAmountPattern(s) && ParseDouble(s).GetOr(0.0) > 0.0
  }

  /** An amount is valid exactly when it has the shape `^\d*\.?\d+$` and one of its
      digits is not 0. */
  lemma AmountValidIffNonZeroDigit(s: string)
    ensures IsAmountValid(s) <==> MatchesAmountPattern(s) && HasNonZeroDigit(s)
  {
    if MatchesAmountPattern(s) {
      var k := DigitRun(s);
      if k == |s| {
        assert s[..k] == s;
        WholeValuePositive(s);
      } else {
        var whole, frac := s[..k], s[k + 1..];
        WholeValuePositive(whole);
        FractionValuePositive(frac);
        if HasNonZeroDigit(whole) {
          var i :| 0 <= i < |whole| && '1' <= whole[i] <= '9';
          assert s[i] == whole[i];
        }
        if HasNonZeroDigit(frac) {
          var i :| 0 <= i < |frac| && '1' <= frac[i] <= '9';
          assert s[k + 1 + i] == frac[i];
        }
        if HasNonZeroDigit(s) {
          var i :| 0 <= i < |s| && '1' <= s[i] <= '9';
          if i < k { assert whole[i] == s[i]; }
          else { assert i != k; assert frac[i - k - 1] == s[i]; }
        }
      }
    }
  }

  /** The examples the add form is meant to accept and reject. */
  lemma AmountExamples()
    ensures IsAmountValid(".5") && IsAmountValid("12")
    ensures !IsAmountValid("") && !IsAmountValid("5.") && !IsAmountValid("-1")
    ensures !IsAmountValid("1e3") && !IsAmountValid("0.0")
  {
    AmountValidIffNonZeroDigit(".5");
    assert ".5"[1] == '5';
    AmountValidIffNonZeroDigit("12");
    assert "12"[0] == '1';
    AmountValidIffNonZeroDigit("0.0");
    assert DigitRun("5.") == 1;
    assert DigitRun("-1") == 0;
    assert DigitRun("1e3") == 1;
  }

  /** `toDoubleOrNull` accepts what the amount pattern rejects: a trailing point and a sign. */
  lemma ParseExamples()
    ensures ParseDouble("5.") == Some(5.0)
    ensures ParseDouble("-3") == Some(-3.0)
    ensures ParseDouble("12.5") == Some(12.5)
    ensures ParseDouble("abc") == None
  {
    assert DigitRun("5.") == 1;
    assert WholeValue("5.."[..1]) == 5;
    assert DigitRun("3") == 1;
    assert DigitRun("12.5") == 2;
    assert "12.5"[..2] == "12";
    assert WholeValue("12") == 12 by { assert "12"[..1] == "1"; }
    assert "12.5"[3..] == "5";
    assert DigitRun("abc") == 0;
  }
}
