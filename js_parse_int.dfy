/**
 * JavaScript's global `parseInt(string)` called without a radix, following
 * ECMAScript section 19.2.5: skip leading white space, take an optional sign,
 * switch to radix 16 after a `0x`/`0X` prefix, read the longest run of digits
 * of that radix, and give NaN (here `None`) when the run is empty.
 */
module JsParseInt {
  import opened Wrappers
  import opened JsText

  /** The digit value of a letter or decimal digit, 36 for any other character. */
  function DigitValue(c: char): (d: nat)
    ensures d <= 36
    ensures d < 10 <==> '0' <= c <= '9'
  {
    if '0' <= c <= '9' then c as int - '0' as int
    else if 'a' <= c <= 'z' then c as int - 'a' as int + 10
    else if 'A' <= c <= 'Z' then c as int - 'A' as int + 10
    else 36
  }

  predicate IsDigitIn(c: char, radix: nat) {
    DigitValue(c) < radix
  }

  predicate AllDigitsIn(ds: string, radix: nat) {
    forall k :: 0 <= k < |ds| ==> IsDigitIn(ds[k], radix)
  }

  /** Length of the longest prefix of `s` made of digits of `radix`. */
  function DigitRun(s: string, radix: nat): (n: nat)
    ensures n <= |s|
    ensures AllDigitsIn(s[..n], radix)
    ensures n < |s| ==> !IsDigitIn(s[n], radix)
  {
    if |s| > 0 && IsDigitIn(s[0], radix) then 1 + DigitRun(s[1..], radix) else 0
  }

  /** The number that a run of digits denotes, most significant digit first. */
  function Value(ds: string, radix: nat): nat
    requires AllDigitsIn(ds, radix)
  {
    if ds == [] then 0
    else Value(ds[..|ds| - 1], radix) * radix + DigitValue(ds[|ds| - 1])
  }

  /** What is left once the leading white space and the sign are removed. */
  function Unsigned(s: string): string {
    var t := s[LeadingSpace(s)..];
    if |t| > 0 && (t[0] == '-' || t[0] == '+') then t[1..] else t
  }

  predicate IsNegative(s: string) {
    var t := s[LeadingSpace(s)..];
    |t| > 0 && t[0] == '-'
  }

  predicate HasHexPrefix(u: string) {
    |u| >= 2 && u[0] == '0' && (u[1] == 'x' || u[1] == 'X')
  }

  function Radix(s: string): nat {
    if HasHexPrefix(Unsigned(s)) then 16 else 10
  }

  /** The digits that follow the sign and, in radix 16, the prefix. */
  function DigitsPart(s: string): string {
    var u := Unsigned(s);
    if HasHexPrefix(u) then u[2..] else u
  }

  /**
   * `parseInt(s)`; `None` stands for NaN. The result is NaN exactly when no
   * digit follows the white space, the sign and the prefix, and otherwise is
   * the value of the digit run with the sign applied.
   */
  function ParseInt(s: string): (r: Option<int>)
    ensures r.None? <==> DigitRun(DigitsPart(s), Radix(s)) == 0
    ensures r.Some? && r.value < 0 ==> IsNegative(s)
  {
    var ds := DigitsPart(s);
    var n := DigitRun(ds, Radix(s));
    if n == 0 then None
    else
      var v: int := Value(ds[..n], Radix(s));
      Some(if IsNegative(s) then -v else v)
  }

  function DigitChar(d: nat): (c: char)
    requires d < 10
    ensures DigitValue(c) == d
  {
    "0123456789"[d]
  }

  /** The canonical decimal rendering of a natural number (`String(n)`). */
  function DecimalString(n: nat): (s: string)
    ensures |s| > 0 && AllDigitsIn(s, 10)
    ensures n > 0 ==> s[0] != '0'
  {
    if n < 10 then [DigitChar(n)] else DecimalString(n / 10) + [DigitChar(n % 10)]
  }

  lemma {:induction false} ValueOfDecimalString(n: nat)
    ensures Value(DecimalString(n), 10) == n
  {
    var s := DecimalString(n);
    if n >= 10 {
      ValueOfDecimalString(n / 10);
      assert s[..|s| - 1] == DecimalString(n / 10);
    }
  }

  lemma LeadingSpaceOfPadded(ws: string, body: string)
    requires AllWhiteSpace(ws) && body != [] && !IsWhiteSpace(body[0])
    ensures LeadingSpace(ws + body) == |ws| && (ws + body)[|ws|..] == body
  {
    assert (ws + body)[|ws|] == body[0];
  }

  lemma {:induction false} DigitRunOfDigits(d: string, rest: string, radix: nat)
    requires AllDigitsIn(d, radix)
    requires rest != [] ==> !IsDigitIn(rest[0], radix)
    ensures DigitRun(d + rest, radix) == |d| && (d + rest)[..|d|] == d
  {
    var u := d + rest;
    if d == [] {
      assert u == rest;
    } else {
      assert u[0] == d[0];
      assert u[1..] == d[1..] + rest;
      DigitRunOfDigits(d[1..], rest, radix);
    }
    assert u[..|d|] == d;
  }

  /** `parseInt` of a string whose unsigned part has no hex prefix reads it in radix 10. */
  lemma ParseIntDecimalRadix(s: string, u: string)
    requires Unsigned(s) == u && !HasHexPrefix(u)
    ensures ParseInt(s) == if DigitRun(u, 10) == 0 then None
                           else Some(if IsNegative(s) then -(Value(u[..DigitRun(u, 10)], 10) as int)
                                     else Value(u[..DigitRun(u, 10)], 10) as int)
  {
    assert Radix(s) == 10 && DigitsPart(s) == u;
  }

  /** The unsigned part and the sign of white space, a sign and then a digit. */
  lemma SignedSplit(ws: string, sign: string, u: string)
    requires AllWhiteSpace(ws)
    requires sign == "" || sign == "+" || sign == "-"
    requires u != [] && IsDigitIn(u[0], 10)
    ensures Unsigned(ws + sign + u) == u
    ensures IsNegative(ws + sign + u) <==> sign == "-"
  {
    var body := sign + u;
    assert ws + sign + u == ws + body;
    assert body[0] == (if sign == "" then u[0] else sign[0]);
    LeadingSpaceOfPadded(ws, body);
    if sign != "" { assert body[1..] == u; }
  }

  /**
   * `parseInt` reads back a decimal number: after any white space, an
   * optional sign, and before anything that does not continue the number
   * (a character that is not a decimal digit and, for zero, not an `x` that
   * would make it a hex prefix), it gives the number itself. So
   * `parseInt("13.9")` is 13 and `parseInt("1e2")` is 1.
   */
  lemma ParseIntOfDecimal(ws: string, sign: string, n: nat, rest: string)
    requires AllWhiteSpace(ws)
    requires sign == "" || sign == "+" || sign == "-"
    requires rest != [] ==> !IsDigitIn(rest[0], 10)
    requires rest != [] && n == 0 ==> rest[0] != 'x' && rest[0] != 'X'
    ensures ParseInt(ws + sign + DecimalString(n) + rest) == Some(if sign == "-" then -(n as int) else n as int)
  {
    var d := DecimalString(n);
    var u := d + rest;
    var s := ws + sign + d + rest;
    SignedDecimalSplit(ws, sign, d, rest);
    DecimalNoHexPrefix(n, rest);
    DigitRunOfDigits(d, rest, 10);
    ValueOfDecimalString(n);
    ReadDecimalDigits(s, u, d, n);
  }

  /** White space, a sign and a decimal numeral split into the numeral with what follows and the sign. */
  lemma SignedDecimalSplit(ws: string, sign: string, d: string, rest: string)
    requires AllWhiteSpace(ws)
    requires sign == "" || sign == "+" || sign == "-"
    requires d != [] && IsDigitIn(d[0], 10)
    ensures Unsigned(ws + sign + d + rest) == d + rest
    ensures IsNegative(ws + sign + d + rest) <==> sign == "-"
  {
    var u := d + rest;
    assert ws + sign + d + rest == ws + sign + u;
    assert u[0] == d[0];
    SignedSplit(ws, sign, u);
  }

  /** A decimal numeral followed by anything but an `x` after a lone zero has no hex prefix. */
  lemma DecimalNoHexPrefix(n: nat, rest: string)
    requires rest != [] && n == 0 ==> rest[0] != 'x' && rest[0] != 'X'
    ensures !HasHexPrefix(DecimalString(n) + rest)
  {
    var u := DecimalString(n) + rest;
    if |u| >= 2 && u[0] == '0' && n == 0 { assert u[1] == rest[0]; }
  }

  /** The last step of the read-back: a digit run of `d` in radix 10 reads as `d`'s value. */
  lemma ReadDecimalDigits(s: string, u: string, d: string, n: nat)
    requires Unsigned(s) == u && !HasHexPrefix(u)
    requires d != [] && DigitRun(u, 10) == |d| && u[..|d|] == d && Value(d, 10) == n
    ensures ParseInt(s) == Some(if IsNegative(s) then -(n as int) else n as int)
  {
    ParseIntDecimalRadix(s, u);
  }

  lemma DecimalReadBack(n: nat)
    ensures ParseInt(DecimalString(n)) == Some(n)
  {
    var d := DecimalString(n);
    assert IsDigitIn(d[0], 10);
    assert LeadingSpace(d) == 0 && d[0..] == d;
    assert Unsigned(d) == d && !IsNegative(d);
    assert !HasHexPrefix(d) by {
      if n == 0 { assert |d| == 1; }
    }
    DigitRunOfDigits(d, [], 10);
    assert d + [] == d;
    ValueOfDecimalString(n);
    ParseIntDecimalRadix(d, d);
  }

  /** The two ages that bound the signup form's range. */
  lemma ParseIntBounds()
    ensures ParseInt("13") == Some(13) && ParseInt("120") == Some(120)
  {
    DecimalReadBack(13);
    assert DecimalString(13) == "13";
    DecimalReadBack(120);
    assert DecimalString(120) == "120";
  }

  /** A `0x` prefix switches to radix 16, so `"0x14"` reads as 20 (a value the page's number input never holds). */
  lemma ParseIntHex()
    ensures ParseInt("0x14") == Some(20)
  {
    var s := "0x14";
    assert LeadingSpace(s) == 0;
    assert s[0..] == s;
    assert Unsigned(s) == s;
    assert DigitsPart(s) == "14";
    assert HasHexPrefix(s) && Radix(s) == 16;
    DigitRunOfDigits("14", "", 16);
    assert "14" + "" == "14" && "14"[..2] == "14";
    assert Value("1", 16) == 1 by { assert "1"[..0] == ""; }
    assert Value("14", 16) == 20 by { assert "14"[..1] == "1"; }
  }

  /** Without digits the result is NaN. */
  lemma ParseIntNaN()
    ensures ParseInt("") == None && ParseInt("abc") == None && ParseInt("0x") == None
  {
    assert LeadingSpace("abc") == 0;
    assert "abc"[0..] == "abc";
    assert LeadingSpace("0x") == 0;
    assert "0x"[0..] == "0x";
    assert DigitsPart("0x") == "";
  }
}
