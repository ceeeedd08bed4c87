/**
 * The controller's input validators: a colour must be one of three names,
 * and a number must be accepted by Python's `int()` with a value in [0, 100].
 * `int()` is modelled here for `str` arguments in base 10.
 */
module Validation {
  import opened Basics
  import opened Morse

  const ValidColors: seq<string> := ["Red", "Green", "Blue"]

  /** A supported colour; its initial, upper-cased, is always a key of the table. */
  function ValidateColor(color: string): (ok: bool)
    ensures ok ==> |color| > 0 && Upper(color[0]) in MorseCode
  {
    color in ValidColors
  }

  /** The three colours have distinct initials, so the initial identifies the colour. */
  lemma ColorByInitial(a: string, b: string)
    requires ValidateColor(a) && ValidateColor(b)
    requires Upper(a[0]) == Upper(b[0])
    ensures a == b
  {
  }

  /** The check is exact and case-sensitive. */
  lemma ColorExamples()
    ensures ValidateColor("Red") && ValidateColor("Green") && ValidateColor("Blue")
    ensures !ValidateColor("Invalid") && !ValidateColor("red") && !ValidateColor("")
  {
    assert "red" != "Red" by { assert "red"[0] != "Red"[0]; }
    assert "Invalid" != "Green" by { assert "Invalid"[0] != "Green"[0]; }
  }

  /**
   * The whitespace `int()` strips: ASCII space and '\t' through '\r', and
   * the non-ASCII characters `str.isspace()` accepts. The ASCII separators
   * U+001C..U+001F pass `str.isspace()` but are not stripped.
   */
  predicate IsSpace(c: char)
  {
    || c == ' '
    || '\t' <= c <= '\r'
    || c == '\U{85}' || c == '\U{a0}' || c == '\U{1680}'
    || '\U{2000}' <= c <= '\U{200a}'
    || c == '\U{2028}' || c == '\U{2029}' || c == '\U{202f}' || c == '\U{205f}' || c == '\U{3000}'
  }

  /** Drops leading whitespace. */
  function TrimLeft(s: string): string
  {
    if s != [] && IsSpace(s[0]) then TrimLeft(s[1..]) else s
  }

  /** Drops trailing whitespace. */
  function TrimRight(s: string): string
  {
    if s != [] && IsSpace(s[|s| - 1]) then TrimRight(s[..|s| - 1]) else s
  }

  function Strip(s: string): string
  {
    TrimRight(TrimLeft(s))
  }

  /** TrimLeft removes a prefix made of whitespace only. */
  lemma {:induction false} TrimLeftRemovesSpaces(s: string)
    ensures |TrimLeft(s)| <= |s| && TrimLeft(s) == s[|s| - |TrimLeft(s)|..]
    ensures forall i :: 0 <= i < |s| - |TrimLeft(s)| ==> IsSpace(s[i])
  {
    if s != [] && IsSpace(s[0]) {
      TrimLeftRemovesSpaces(s[1..]);
    }
  }

  /** TrimRight removes a suffix made of whitespace only. */
  lemma {:induction false} TrimRightRemovesSpaces(s: string)
    ensures |TrimRight(s)| <= |s| && TrimRight(s) == s[..|TrimRight(s)|]
    ensures forall i :: |TrimRight(s)| <= i < |s| ==> IsSpace(s[i])
  {
    if s != [] && IsSpace(s[|s| - 1]) {
      TrimRightRemovesSpaces(s[..|s| - 1]);
    }
  }

  /** A string with no whitespace at either end is its own stripped form. */
  lemma StripUnpadded(s: string)
    requires s != [] && !IsSpace(s[0]) && !IsSpace(s[|s| - 1])
    ensures Strip(s) == s
  {
    assert TrimLeft(s) == s;
  }

  /**
   * The digits of a base-10 literal: ASCII digits, possibly with single
   * underscores between two digits.
   */
  predicate WellFormedDigits(b: string)
  {
    && |b| > 0
    && IsDigit(b[0]) && IsDigit(b[|b| - 1])
    && (forall i :: 0 <= i < |b| ==> IsDigit(b[i]) || b[i] == '_')
    && (forall i :: 0 <= i < |b| - 1 ==> b[i] == '_' ==> b[i + 1] != '_')
  }

  function RemoveUnderscores(b: string): string
  {
    if b == [] then [] else (if b[0] == '_' then [] else [b[0]]) + RemoveUnderscores(b[1..])
  }

  /** The value of a string of ASCII digits, most significant first. */
  function DecimalValue(s: string): nat
  {
    if s == [] then 0
    else 10 * DecimalValue(s[..|s| - 1]) + (if IsDigit(s[|s| - 1]) then s[|s| - 1] as int - '0' as int else 0)
  }

  /**
   * `int(s)` for a `str` in base 10: surrounding whitespace is ignored, an
   * optional sign may precede the digits, underscores may separate digits;
   * anything else raises `ValueError` (here `None`). An empty or blank
   * argument always raises.
   */
  function PyInt(s: string): (r: Option<int>)
    ensures r.Some? ==> Strip(s) != [] && s != []
  {
    ParseStripped(Strip(s))
  }

  /** `int()` after whitespace is stripped: an optional sign, then the digits. */
  function ParseStripped(t: string): Option<int>
  {
    if |t| > 0 && (t[0] == '+' || t[0] == '-') then
      if WellFormedDigits(t[1..]) then
        var m: int := DecimalValue(RemoveUnderscores(t[1..]));
        Some(if t[0] == '-' then -m else m)
      else None
    else if WellFormedDigits(t) then Some(DecimalValue(RemoveUnderscores(t)))
    else None
  }

  /** A character `int()` can accept somewhere in its argument. */
  predicate NumeralChar(c: char)
  {
    IsDigit(c) || IsSpace(c) || c == '+' || c == '-' || c == '_'
  }

  /** A number in [0, 100] as `int()` reads it. */
  function ValidateNumber(number: string): (ok: bool)
    ensures ok ==> number != []
  {
    var v := PyInt(number);
    v.Some? && 0 <= v.value <= 100
  }

  /**
   * A string `int()` accepts is never empty and holds only digits,
   * whitespace, signs and underscores.
   */
  lemma PyIntChars(s: string)
    requires PyInt(s).Some?
    ensures s != [] && forall i :: 0 <= i < |s| ==> NumeralChar(s[i])
  {
    var l := TrimLeft(s);
    var t := TrimRight(l);
    TrimLeftRemovesSpaces(s);
    TrimRightRemovesSpaces(l);
    var lo := |s| - |l|;
    assert t != [];
    forall i | 0 <= i < |s|
      ensures NumeralChar(s[i])
    {
      if i >= lo && i - lo < |t| {
        assert s[i] == t[i - lo];
        if |t| > 0 && (t[0] == '+' || t[0] == '-') {
          if i - lo > 0 {
            assert t[i - lo] == t[1..][i - lo - 1];
          }
        }
      } else if i >= lo {
        assert s[i] == l[i - lo];
      }
    }
  }

  predicate IsDigitString(s: string)
  {
    s != [] && forall i :: 0 <= i < |s| ==> IsDigit(s[i])
  }

  lemma {:induction false} RemoveUnderscoresOfDigits(s: string)
    requires forall i :: 0 <= i < |s| ==> IsDigit(s[i])
    ensures RemoveUnderscores(s) == s
  {
    if s != [] {
      RemoveUnderscoresOfDigits(s[1..]);
    }
  }

  /** For a string of ASCII digits the check is exactly "its value is at most 100". */
  lemma DigitStringValidation(s: string)
    requires IsDigitString(s)
    ensures PyInt(s) == Some(DecimalValue(s))
    ensures ValidateNumber(s) <==> DecimalValue(s) <= 100
  {
    StripUnpadded(s);
    assert WellFormedDigits(s);
    RemoveUnderscoresOfDigits(s);
  }

  /** `int()` ignores whitespace in front of its argument. */
  lemma LeadingSpaceIgnored(c: char, s: string)
    requires IsSpace(c)
    ensures PyInt([c] + s) == PyInt(s)
  {
    assert ([c] + s)[1..] == s;
  }

  /** After stripping, a sign followed by well-formed digits reads as the signed value. */
  lemma ParseSigned(sign: char, d: string)
    requires sign == '+' || sign == '-'
    requires WellFormedDigits(d)
    ensures ParseStripped([sign] + d) ==
      var m: int := DecimalValue(RemoveUnderscores(d)); Some(if sign == '-' then -m else m)
  {
    var s := [sign] + d;
    assert s[1..] == d;
    assert |s| > 0 && s[0] == sign;
  }

  lemma DigitStringWellFormed(d: string)
    requires IsDigitString(d)
    ensures WellFormedDigits(d) && RemoveUnderscores(d) == d
  {
    RemoveUnderscoresOfDigits(d);
  }

  /** A sign followed by digits has no whitespace to strip. */
  lemma SignedUnpadded(sign: char, d: string)
    requires sign == '+' || sign == '-'
    requires IsDigitString(d)
    ensures Strip([sign] + d) == [sign] + d
  {
    var s := [sign] + d;
    assert s[0] == sign && s[|s| - 1] == d[|d| - 1];
    assert IsDigit(d[|d| - 1]);
    StripUnpadded(s);
  }

  /** `int()` accepts a sign in front of a digit string; "-0" is zero. */
  lemma SignedDigits(sign: char, d: string)
    requires sign == '+' || sign == '-'
    requires IsDigitString(d)
    ensures PyInt([sign] + d) == Some(if sign == '-' then -(DecimalValue(d) as int) else DecimalValue(d))
  {
    var s := [sign] + d;
    SignedUnpadded(sign, d);
    DigitStringWellFormed(d);
    ParseSigned(sign, d);
    assert PyInt(s) == ParseStripped(Strip(s)) == ParseStripped(s);
  }

  /** The boundaries of the range are accepted. */
  lemma BoundaryNumbers()
    ensures ValidateNumber("0") && ValidateNumber("100")
  {
    DigitStringValidation("0");
    DigitStringValidation("100");
  }

  /** The numbers the demo script tries: 42 is accepted, 150 is not. */
  lemma DemoNumbers()
    ensures ValidateNumber("42") && !ValidateNumber("150")
  {
    DigitStringValidation("42");
    assert DecimalValue("150") == 150 by {
      assert "150"[..2] == "15" && "15"[..1] == "1";
    }
    DigitStringValidation("150");
  }

  /** An information separator in front of a digit is not whitespace to `int()`. */
  lemma SeparatorNotStripped()
    ensures !ValidateNumber("\U{1c}5")
  {
    var s := "\U{1c}5";
    assert !IsSpace(s[0]) && !IsSpace(s[1]);
    StripUnpadded(s);
    assert !IsDigit(s[0]);
  }

  /** One past the upper bound is rejected. */
  lemma AboveRange()
    ensures !ValidateNumber("101")
  {
    assert DecimalValue("101") == 101 by {
      assert "101"[..2] == "10" && "10"[..1] == "1";
    }
    DigitStringValidation("101");
  }

  /** A string that is not a base-10 integer is rejected. */
  lemma NotANumber()
    ensures !ValidateNumber("1a") && !ValidateNumber("")
  {
    StripUnpadded("1a");
  }

  /** A negative number is rejected. */
  lemma NegativeNumber()
    ensures !ValidateNumber("-1")
  {
    SignedDigits('-', "1");
    assert ['-'] + "1" == "-1";
  }

  /** Because `int()` is lenient, padded and signed strings are accepted too. */
  lemma LenientNumbers()
    ensures ValidateNumber(" 5") && ValidateNumber("+7") && ValidateNumber("-0")
  {
    LeadingSpaceIgnored(' ', "5");
    assert [' '] + "5" == " 5";
    DigitStringValidation("5");
    SignedDigits('+', "7");
    assert ['+'] + "7" == "+7";
    SignedDigits('-', "0");
    assert ['-'] + "0" == "-0";
  }

  /** Single underscores between digits are accepted, doubled ones are not. */
  lemma UnderscoreNumbers()
    ensures ValidateNumber("1_0") && !ValidateNumber("1__0")
  {
    StripUnpadded("1_0");
    assert WellFormedDigits("1_0");
    assert RemoveUnderscores("1_0") == "10";
    assert DecimalValue("10") == 10 by { assert "10"[..1] == "1"; }
    StripUnpadded("1__0");
    assert !WellFormedDigits("1__0") by { assert "1__0"[1] == '_' && "1__0"[2] == '_'; }
  }
}
