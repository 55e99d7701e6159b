/** String helpers the views rely on: JavaScript's `String.prototype.trim`
    and the "is there anything left after trimming" test used by every
    send and submit guard. */
module Text {

  /** The characters `trim` removes: ECMAScript WhiteSpace and LineTerminator. */
  predicate IsJsWhitespace(c: char) {
    var n := c as int;
    n == 0x20 || 0x09 <= n <= 0x0D || n == 0xA0 || n == 0x1680 ||
    0x2000 <= n <= 0x200A || n == 0x2028 || n == 0x2029 || n == 0x202F ||
    n == 0x205F || n == 0x3000 || n == 0xFEFF
  }

  function TrimStart(s: string): (r: string)
    ensures |r| <= |s| && r == s[|s| - |r|..]
    ensures r != [] ==> !IsJsWhitespace(r[0])
    ensures forall i :: 0 <= i < |s| - |r| ==> IsJsWhitespace(s[i])
  {
    if s != [] && IsJsWhitespace(s[0]) then TrimStart(s[1..]) else s
  }

  function TrimEnd(s: string): (r: string)
    ensures |r| <= |s| && r == s[..|r|]
    ensures r != [] ==> !IsJsWhitespace(r[|r| - 1])
    ensures forall i :: |r| <= i < |s| ==> IsJsWhitespace(s[i])
  {
    if s != [] && IsJsWhitespace(s[|s| - 1]) then TrimEnd(s[..|s| - 1]) else s
  }

  /** `s.trim()`: the substring left after removing leading and trailing whitespace. */
  function Trim(s: string): string {
    TrimEnd(TrimStart(s))
  }

  /** The text has a character `trim` keeps. */
  predicate HasVisibleText(s: string) {
    exists i :: 0 <= i < |s| && !IsJsWhitespace(s[i])
  }

  /** `s.trim()` is truthy exactly when some character of `s` is not whitespace. */
  lemma TrimNonEmptyIff(s: string)
    ensures Trim(s) != "" <==> HasVisibleText(s)
  {
    if HasVisibleText(s) {
      var i :| 0 <= i < |s| && !IsJsWhitespace(s[i]);
      VisibleSurvivesTrimStart(s, i);
      VisibleSurvivesTrimEnd(TrimStart(s), i - (|s| - |TrimStart(s)|));
    }
    if Trim(s) != "" {
      TrimmedIsVisible(s);
    }
  }

  /** A visible character at `i` is still there after `TrimStart`. */
  lemma VisibleSurvivesTrimStart(s: string, i: nat)
    requires i < |s| && !IsJsWhitespace(s[i])
    ensures |s| - |TrimStart(s)| <= i
    ensures TrimStart(s)[i - (|s| - |TrimStart(s)|)] == s[i]
  {
  }

  /** A visible character keeps `TrimEnd` from emptying the text. */
  lemma VisibleSurvivesTrimEnd(t: string, k: nat)
    requires k < |t| && !IsJsWhitespace(t[k])
    ensures TrimEnd(t) != ""
  {
    assert k < |TrimEnd(t)|;
  }

  lemma TrimmedIsVisible(s: string)
    requires Trim(s) != ""
    ensures HasVisibleText(s)
  {
    var t := TrimStart(s);
    var r := TrimEnd(t);
    assert t[0] == r[0];
    assert s[|s| - |t|] == t[0];
  }

  /** The decimal digit character for `d`. */
  function DigitChar(d: nat): char
    requires d < 10
  {
    ('0' as int + d) as char
  }

  /** `n.toString()` for a non-negative integer: its decimal digits, no leading zero. */
  function Decimal(n: nat): (r: string)
    ensures |r| >= 1
    ensures forall i :: 0 <= i < |r| ==> '0' <= r[i] <= '9'
    ensures n >= 10 ==> r[0] != '0'
  {
    if n < 10 then [DigitChar(n)] else Decimal(n / 10) + [DigitChar(n % 10)]
  }

  /** The number a string of decimal digits denotes (`parseInt`). */
  function DecimalValue(s: string): nat
    requires forall i :: 0 <= i < |s| ==> '0' <= s[i] <= '9'
  {
    if s == [] then 0 else 10 * DecimalValue(s[..|s| - 1]) + (s[|s| - 1] as int - '0' as int)
  }

  /** Printing a number and reading it back gives the number. */
  lemma {:induction false} DecimalRoundTrip(n: nat)
    ensures DecimalValue(Decimal(n)) == n
  {
    if n >= 10 {
      var d := Decimal(n);
      assert d[..|d| - 1] == Decimal(n / 10);
      DecimalRoundTrip(n / 10);
    }
  }

  /** A number from 1000 to 9999 prints as exactly four digits. */
  lemma FourDigitDecimal(n: nat)
    requires 1000 <= n <= 9999
    ensures |Decimal(n)| == 4
  {
    assert |Decimal(n / 1000)| == 1;
    assert |Decimal(n / 100)| == 2;
    assert |Decimal(n / 10)| == 3;
  }
}
