/** The few JavaScript string operations the group registry and the create-group
    form rely on: `parseInt` on decimal digit strings, `String(n)` on a
    non-negative integer, `String.prototype.padStart` with a one-character
    filler, and `String.prototype.trim`. */
module JsString {

  predicate IsDigit(c: char) {
    '0' <= c <= '9'
  }

  /** A non-empty string of decimal digits: the only kind of identifier the
      registry ever parses. */
  predicate IsDigitString(s: string) {
    |s| > 0 && forall i :: 0 <= i < |s| ==> IsDigit(s[i])
  }

  function DigitValue(c: char): (d: nat)
    requires IsDigit(c)
    ensures d < 10
  {
    (c as int) - ('0' as int)
  }

  function DigitChar(d: nat): (c: char)
    requires d < 10
    ensures IsDigit(c) && DigitValue(c) == d
  {
    (('0' as int) + d) as char
  }

  /** `parseInt(s)` for a string of decimal digits, read most significant digit
      first; leading zeros contribute nothing. */
  function ParseInt(s: string): nat
    requires IsDigitString(s)
    decreases |s|
  {
    if |s| == 1 then DigitValue(s[0])
    else ParseInt(s[..|s| - 1]) * 10 + DigitValue(s[|s| - 1])
  }

  /** `String(n)`: the shortest decimal rendering of `n`. */
  function NatToString(n: nat): (s: string)
    ensures IsDigitString(s)
    ensures s[0] == '0' ==> n == 0 && s == "0"
    decreases n
  {
    if n < 10 then [DigitChar(n)]
    else NatToString(n / 10) + [DigitChar(n % 10)]
  }

  /** `s.padStart(width, [fill])`: prefixes copies of `fill` until the result is
      `width` long; a string already that long is returned whole, never cut. */
  function PadStart(s: string, width: nat, fill: char): (r: string)
    ensures |r| == if |s| < width then width else |s|
    ensures r[|r| - |s|..] == s
    ensures forall i :: 0 <= i < |r| - |s| ==> r[i] == fill
  {
    if |s| >= width then s else seq(width - |s|, _ => fill) + s
  }

  /** `String(n).padStart(3, "0")`, the rendering of a group identifier. */
  function Pad3(n: nat): string {
    PadStart(NatToString(n), 3, '0')
  }

  lemma {:induction false} NatToStringRoundTrip(n: nat)
    ensures ParseInt(NatToString(n)) == n
    decreases n
  {
    if n >= 10 {
      var s := NatToString(n);
      assert s[..|s| - 1] == NatToString(n / 10);
      NatToStringRoundTrip(n / 10);
    }
  }

  lemma {:induction false} ParseAllZeros(z: string)
    requires IsDigitString(z)
    requires forall i :: 0 <= i < |z| ==> z[i] == '0'
    ensures ParseInt(z) == 0
    decreases |z|
  {
    if |z| > 1 {
      ParseAllZeros(z[..|z| - 1]);
    }
  }

  /** Leading zeros do not change the value `parseInt` reads. */
  lemma {:induction false} ParseLeadingZeros(z: string, s: string)
    requires IsDigitString(s)
    requires forall i :: 0 <= i < |z| ==> z[i] == '0'
    ensures IsDigitString(z + s)
    ensures ParseInt(z + s) == ParseInt(s)
    decreases |s|
  {
    var t := z + s;
    assert forall i :: 0 <= i < |t| ==> IsDigit(t[i]) by {
      forall i | 0 <= i < |t| ensures IsDigit(t[i]) {
        if i < |z| { assert t[i] == z[i]; } else { assert t[i] == s[i - |z|]; }
      }
    }
    if z == [] {
      assert t == s;
    } else if |s| == 1 {
      assert t[..|t| - 1] == z;
      ParseAllZeros(z);
    } else {
      assert t[..|t| - 1] == z + s[..|s| - 1];
      ParseLeadingZeros(z, s[..|s| - 1]);
    }
  }

  /** What a padded identifier looks like, and that `parseInt` undoes the
      padding: the value read back is exactly the number rendered. */
  lemma Pad3Properties(n: nat)
    ensures IsDigitString(Pad3(n))
    ensures |Pad3(n)| >= 3
    ensures |NatToString(n)| >= 3 ==> Pad3(n) == NatToString(n)
    ensures ParseInt(Pad3(n)) == n
  {
    var s := NatToString(n);
    var p := Pad3(n);
    var z := p[..|p| - |s|];
    assert p == z + s;
    ParseLeadingZeros(z, s);
    NatToStringRoundTrip(n);
  }

  /** Distinct numbers never render to the same identifier. */
  lemma Pad3Injective(m: nat, n: nat)
    requires Pad3(m) == Pad3(n)
    ensures m == n
  {
    Pad3Properties(m);
    Pad3Properties(n);
  }

  /** Padding widens a short rendering with zeros. */
  lemma Pad3Widens()
    ensures Pad3(5) == "005"
  {
    var p := Pad3(5);
    assert NatToString(5) == "5";
    assert |p| == 3;
    assert p[2..] == "5";
    assert p[0] == '0';
    assert p[1] == '0';
    assert p[2] == '5';
    assert p == "005";
  }

  /** The identifier of a group created in an empty catalog renders and parses
      as itself. */
  lemma Pad3Of123()
    ensures Pad3(123) == "123" && ParseInt("123") == 123
  {
    assert NatToString(12) == "12";
    assert NatToString(123) == "123";
    NatToStringRoundTrip(123);
  }

  /** A rendering already three or more digits long is never truncated. */
  lemma Pad3NeverTruncates()
    ensures Pad3(999) == "999"
    ensures Pad3(1000) == "1000"
  {
    assert NatToString(99) == "99";
    assert NatToString(100) == "100";
    assert NatToString(1000) == "1000";
  }

  /** ECMAScript WhiteSpace and LineTerminator code points, the characters
      `String.prototype.trim` removes. */
  predicate IsJsWhitespace(c: char) {
    c == '\t' || c == '\n' || c == '\U{000B}' || c == '\U{000C}' || c == '\r' || c == ' '
    || c == '\U{00A0}' || c == '\U{1680}' || ('\U{2000}' <= c <= '\U{200A}')
    || c == '\U{2028}' || c == '\U{2029}' || c == '\U{202F}' || c == '\U{205F}'
    || c == '\U{3000}' || c == '\U{FEFF}'
  }

  /** Drops the leading whitespace: the result is the suffix of `s` that
      starts at its first non-whitespace character. */
  function TrimStart(s: string): (r: string)
    ensures |r| <= |s| && r == s[|s| - |r|..]
    ensures forall i :: 0 <= i < |s| - |r| ==> IsJsWhitespace(s[i])
    ensures r != [] ==> !IsJsWhitespace(r[0])
  {
    if |s| > 0 && IsJsWhitespace(s[0]) then TrimStart(s[1..]) else s
  }

  /** Drops the trailing whitespace: the result is the prefix of `s` that
      ends at its last non-whitespace character. */
  function TrimEnd(s: string): (r: string)
    ensures |r| <= |s| && r == s[..|r|]
    ensures forall i :: |r| <= i < |s| ==> IsJsWhitespace(s[i])
    ensures r != [] ==> !IsJsWhitespace(r[|r| - 1])
  {
    if |s| > 0 && IsJsWhitespace(s[|s| - 1]) then TrimEnd(s[..|s| - 1]) else s
  }

  /** `s.trim()`: what is left has no whitespace at either end. */
  function Trim(s: string): (r: string)
    ensures |r| <= |s|
    ensures r != [] ==> !IsJsWhitespace(r[0]) && !IsJsWhitespace(r[|r| - 1])
  {
    var t := TrimStart(s);
    var r := TrimEnd(t);
    assert r != [] ==> r[0] == t[0];
    r
  }

  /** `!s.trim()`: the string is empty after trimming. */
  predicate IsBlank(s: string) {
    Trim(s) == ""
  }

  /** A string is blank exactly when every one of its characters is
      whitespace; in particular the empty string is blank. */
  lemma BlankIffAllWhitespace(s: string)
    ensures IsBlank(s) <==> forall i :: 0 <= i < |s| ==> IsJsWhitespace(s[i])
  {
    var t := TrimStart(s);
    if IsBlank(s) {
      assert t == [];
    } else {
      var r := Trim(s);
      assert r[0] == t[0];
      assert t[0] == s[|s| - |t|];
    }
  }
}
