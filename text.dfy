/** The string operations the program borrows from JavaScript: `trim`,
    `toLowerCase`, the regular-expression test `/\S/`, and the decimal text
    that `String(n)` and template literals give an integer. */
module Text {

  /** The characters JavaScript counts as white space in `trim` and in `\s`
      (its WhiteSpace and LineTerminator sets). */
  predicate IsWhitespace(c: char) {
    || c == ' ' || c == '\t' || c == '\n' || c == '\r'
    || c == '\U{000B}' || c == '\U{000C}' || c == '\U{00A0}' || c == '\U{1680}'
    || ('\U{2000}' <= c <= '\U{200A}')
    || c == '\U{2028}' || c == '\U{2029}' || c == '\U{202F}' || c == '\U{205F}'
    || c == '\U{3000}' || c == '\U{FEFF}'
  }

  /** `/\S/.test(s)`: some character of `s` is not white space. */
  predicate HasNonWhitespace(s: string) {
    exists i :: 0 <= i < |s| && !IsWhitespace(s[i])
  }

  /** White space removed from the front: what is left is a suffix of `s`. */
  function TrimStart(s: string): (r: string)
    ensures |r| <= |s| && r == s[|s| - |r|..]
  {
    if |s| > 0 && IsWhitespace(s[0]) then TrimStart(s[1..]) else s
  }

  /** White space removed from the back: what is left is a prefix of `s`. */
  function TrimEnd(s: string): (r: string)
    ensures |r| <= |s| && r == s[..|r|]
  {
    if |s| > 0 && IsWhitespace(s[|s| - 1]) then TrimEnd(s[..|s| - 1]) else s
  }

  /** `s.trim()`. */
  function Trim(s: string): string {
    TrimEnd(TrimStart(s))
  }

  /** TrimStart cuts only white space, and stops at the first character
      that is not. */
  lemma {:induction false} TrimStartCut(s: string)
    ensures TrimStart(s) == [] || !IsWhitespace(TrimStart(s)[0])
    ensures forall k :: 0 <= k < |s| - |TrimStart(s)| ==> IsWhitespace(s[k])
    decreases |s|
  {
    if |s| > 0 && IsWhitespace(s[0]) {
      assert TrimStart(s) == TrimStart(s[1..]);
      TrimStartCut(s[1..]);
      forall k | 1 <= k < |s| - |TrimStart(s)| ensures IsWhitespace(s[k]) {
        assert s[k] == s[1..][k - 1];
      }
    }
  }

  /** TrimEnd cuts only white space, and stops at the last character that
      is not. */
  lemma {:induction false} TrimEndCut(s: string)
    ensures TrimEnd(s) == [] || !IsWhitespace(TrimEnd(s)[|TrimEnd(s)| - 1])
    ensures forall k :: |TrimEnd(s)| <= k < |s| ==> IsWhitespace(s[k])
    decreases |s|
  {
    if |s| > 0 && IsWhitespace(s[|s| - 1]) {
      TrimEndCut(s[..|s| - 1]);
      forall k | |TrimEnd(s)| <= k < |s| - 1 ensures IsWhitespace(s[k]) {
        assert s[k] == s[..|s| - 1][k];
      }
    }
  }

  /** What TrimStart removes is blank. */
  lemma {:induction false} TrimStartRemovesBlank(s: string)
    ensures Blank(s[..|s| - |TrimStart(s)|])
  {
    TrimStartCut(s);
    var p := s[..|s| - |TrimStart(s)|];
    forall k | 0 <= k < |p| ensures IsWhitespace(p[k]) {
      assert p[k] == s[k];
    }
  }

  /** What TrimEnd removes is blank. */
  lemma {:induction false} TrimEndRemovesBlank(s: string)
    ensures Blank(s[|TrimEnd(s)|..])
  {
    TrimEndCut(s);
    var q := s[|TrimEnd(s)|..];
    forall k | 0 <= k < |q| ensures IsWhitespace(q[k]) {
      assert q[k] == s[k + |TrimEnd(s)|];
    }
  }

  /** Trim leaves a contiguous piece of `s`, and what it removes on either
      side is blank. */
  lemma {:induction false} TrimIsInnerSlice(s: string)
    ensures var i := |s| - |TrimStart(s)|;
            && i + |Trim(s)| <= |s| && Trim(s) == s[i..i + |Trim(s)|]
            && Blank(s[..i]) && Blank(s[i + |Trim(s)|..])
  {
    var t := TrimStart(s);
    var u := TrimEnd(t);
    var i := |s| - |t|;
    assert t == s[i..];
    assert u == s[i..i + |u|];
    TrimStartRemovesBlank(s);
    assert Blank(s[i + |u|..]) by {
      TrimEndRemovesBlank(t);
      assert s[i + |u|..] == t[|u|..];
    }
  }

  /** What Trim leaves neither starts nor ends with white space. */
  lemma {:induction false} TrimEndsAreNotWhitespace(s: string)
    ensures Trim(s) == [] || (!IsWhitespace(Trim(s)[0]) && !IsWhitespace(Trim(s)[|Trim(s)| - 1]))
  {
    var t := TrimStart(s);
    TrimStartCut(s);
    TrimEndCut(t);
    if TrimEnd(t) != [] {
      assert TrimEnd(t)[0] == t[0];
    }
  }

  /** Something survives the trim exactly when `/\S/` matches. */
  lemma {:induction false} TrimEmptyIffBlank(s: string)
    ensures Trim(s) != [] <==> HasNonWhitespace(s)
  {
    var t := TrimStart(s);
    TrimStartCut(s);
    TrimEndCut(t);
    if Trim(s) != [] {
      assert Trim(s)[0] == s[|s| - |t|];
    }
    if HasNonWhitespace(s) {
      var i :| 0 <= i < |s| && !IsWhitespace(s[i]);
      assert i >= |s| - |t|;
      assert t[0] == s[|s| - |t|];
    }
  }

  /** Nothing but white space. */
  predicate Blank(s: string) {
    forall k :: 0 <= k < |s| ==> IsWhitespace(s[k])
  }

  /** `!s.trim()` holds exactly for the blank strings. */
  lemma TrimEmptyIffAllWhitespace(s: string)
    ensures Trim(s) == [] <==> Blank(s)
  {
    TrimEmptyIffBlank(s);
  }

  lemma TrimStartOfTrimmed(s: string)
    requires s == [] || !IsWhitespace(s[0])
    ensures TrimStart(s) == s
  {
  }

  lemma {:induction false} TrimEndKeepsFront(s: string)
    requires s == [] || !IsWhitespace(s[0])
    ensures TrimEnd(s) == [] || !IsWhitespace(TrimEnd(s)[0])
  {
    if TrimEnd(s) != [] {
      assert TrimEnd(s)[0] == s[0];
    }
  }

  /** Trimming twice is trimming once. */
  lemma {:induction false} TrimIdempotent(s: string)
    ensures Trim(Trim(s)) == Trim(s)
  {
    var t := TrimStart(s);
    TrimStartCut(s);
    TrimEndKeepsFront(t);
    var r := TrimEnd(t);
    TrimEndCut(t);
    TrimStartOfTrimmed(r);
    assert TrimEnd(r) == r;
  }

  /** `toLowerCase` on one character, for the upper-case letters of ASCII and
      of Latin-1 (`À`..`Þ` except `×`); every other character is unchanged. */
  function ToLowerChar(c: char): (d: char)
  {
    if 'A' <= c <= 'Z' || ('\U{00C0}' <= c <= '\U{00DE}' && c != '\U{00D7}')
    then (c as int + 32) as char
    else c
  }

  /** Lower-casing never turns white space into something else, nor the reverse. */
  lemma LowerKeepsWhitespace(c: char)
    ensures IsWhitespace(ToLowerChar(c)) <==> IsWhitespace(c)
  {
  }

  /** `s.toLowerCase()`: character by character. */
  function ToLower(s: string): (r: string)
    ensures |r| == |s|
    ensures forall k :: 0 <= k < |s| ==> r[k] == ToLowerChar(s[k])
  {
    seq(|s|, k requires 0 <= k < |s| => ToLowerChar(s[k]))
  }

  /** Lower-casing a lower-cased character changes nothing. */
  lemma LowerCharIdempotent(c: char)
    ensures ToLowerChar(ToLowerChar(c)) == ToLowerChar(c)
  {
  }

  lemma ToLowerIdempotent(s: string)
    ensures ToLower(ToLower(s)) == ToLower(s)
  {
    forall k | 0 <= k < |s| ensures ToLower(ToLower(s))[k] == ToLower(s)[k] {
      LowerCharIdempotent(s[k]);
    }
  }

  lemma ToLowerSlice(s: string, i: int, j: int)
    requires 0 <= i <= j <= |s|
    ensures ToLower(s[i..j]) == ToLower(s)[i..j]
  {
  }

  /** Trimming before or after lower-casing gives the same string. */
  lemma {:induction false} TrimStartLower(s: string)
    ensures TrimStart(ToLower(s)) == ToLower(TrimStart(s))
    decreases |s|
  {
    if |s| > 0 {
      LowerKeepsWhitespace(s[0]);
      if IsWhitespace(s[0]) {
        assert ToLower(s)[1..] == ToLower(s[1..]);
        TrimStartLower(s[1..]);
      }
    }
  }

  lemma {:induction false} TrimEndLower(s: string)
    ensures TrimEnd(ToLower(s)) == ToLower(TrimEnd(s))
    decreases |s|
  {
    if |s| > 0 {
      LowerKeepsWhitespace(s[|s| - 1]);
      if IsWhitespace(s[|s| - 1]) {
        assert ToLower(s)[..|s| - 1] == ToLower(s[..|s| - 1]);
        TrimEndLower(s[..|s| - 1]);
      }
    }
  }

  lemma TrimLowerCommute(s: string)
    ensures Trim(ToLower(s)) == ToLower(Trim(s))
  {
    TrimStartLower(s);
    TrimEndLower(TrimStart(s));
  }

  /** The digit character for 0..9. */
  function DigitChar(d: nat): (c: char)
    requires d < 10
    ensures '0' <= c <= '9' && c as int - '0' as int == d
  {
    (d + '0' as int) as char
  }

  predicate IsDigit(c: char) {
    '0' <= c <= '9'
  }

  /** The decimal digits of a natural number, without leading zeros. */
  function NatText(n: nat): (r: string)
    ensures |r| >= 1 && forall k :: 0 <= k < |r| ==> IsDigit(r[k])
  {
    if n < 10 then [DigitChar(n)] else NatText(n / 10) + [DigitChar(n % 10)]
  }

  /** The decimal text of an integer: a minus sign for negatives, then the
      digits. This is what `String(n)` gives for integers below 10^21 in
      magnitude; larger ones are written in exponent form by JavaScript and
      are outside the model. */
  function DecimalText(n: int): string {
    if n < 0 then "-" + NatText(-n) else NatText(n)
  }

  /** The value of a string of decimal digits (the reading that `Number(s)`
      gives such a string). */
  function DigitsValue(s: string): nat
    requires forall k :: 0 <= k < |s| ==> IsDigit(s[k])
  {
    if s == [] then 0
    else 10 * DigitsValue(s[..|s| - 1]) + DigitValue(s[|s| - 1])
  }

  function DigitValue(c: char): nat
    requires IsDigit(c)
  {
    c as int - '0' as int
  }

  /** `Number(s)` for the texts DecimalText produces: an optional minus sign
      followed by digits. */
  predicate IsDecimalText(s: string) {
    if |s| > 0 && s[0] == '-' then
      |s| > 1 && forall k :: 1 <= k < |s| ==> IsDigit(s[k])
    else
      |s| > 0 && forall k :: 0 <= k < |s| ==> IsDigit(s[k])
  }

  function DecimalValue(s: string): int
    requires IsDecimalText(s)
  {
    if s[0] == '-' then 0 - DigitsValue(s[1..]) else DigitsValue(s)
  }

  lemma {:induction false} NatTextRoundTrip(n: nat)
    ensures DigitsValue(NatText(n)) == n
  {
    if n >= 10 {
      var r := NatText(n);
      assert r[..|r| - 1] == NatText(n / 10);
      NatTextRoundTrip(n / 10);
    }
  }

  /** Reading back the decimal text of an integer gives the integer. */
  lemma DecimalRoundTrip(n: int)
    ensures IsDecimalText(DecimalText(n)) && DecimalValue(DecimalText(n)) == n
  {
    if n < 0 {
      NatTextRoundTrip(-n);
      assert DecimalText(n)[1..] == NatText(-n);
    } else {
      NatTextRoundTrip(n);
    }
  }

  /** Different integers have different decimal texts. */
  lemma DecimalTextInjective(m: int, n: int)
    requires DecimalText(m) == DecimalText(n)
    ensures m == n
  {
    DecimalRoundTrip(m);
    DecimalRoundTrip(n);
  }

  /** The decimal text of an integer has no `/` in it. */
  lemma DecimalTextHasNoSlash(n: int)
    ensures '/' !in DecimalText(n)
  {
    var t := DecimalText(n);
    forall k | 0 <= k < |t| ensures t[k] != '/' {
      if n < 0 && k > 0 {
        assert t[k] == NatText(-n)[k - 1];
      }
    }
  }
}
