/**
 * The JavaScript built-ins the core relies on, as ECMA-262 defines them for the
 * values that occur here: `String.prototype.trim` (section 22.1.3.32),
 * `Number.prototype.toString(radix)` on integral numbers (section 21.1.3.6) and
 * `parseInt(string, radix)` (section 19.2.5).
 *
 * Numbers are mathematical integers: the loss of precision past 2^53 and the
 * exponent notation `toString` switches to at 1e21 are not modelled, and the
 * negative zero that `parseInt("-0")` yields is the integer 0.
 */
module JsNumber {
  import opened Wrappers

  /** StrWhiteSpaceChar: the WhiteSpace and LineTerminator code points. */
  predicate IsWhiteSpace(c: char) {
    || c == '\t' || c == '\n' || c == '\U{000B}' || c == '\U{000C}' || c == '\r'
    || c == ' ' || c == '\U{00A0}' || c == '\U{1680}'
    || ('\U{2000}' <= c <= '\U{200A}')
    || c == '\U{2028}' || c == '\U{2029}' || c == '\U{202F}' || c == '\U{205F}'
    || c == '\U{3000}' || c == '\U{FEFF}'
  }

  predicate AllWhiteSpace(s: string) {
    forall i :: 0 <= i < |s| ==> IsWhiteSpace(s[i])
  }

  /** White space with one more white-space character on either side is white space. */
  lemma BlankAround(c: char, w: string)
    requires IsWhiteSpace(c) && AllWhiteSpace(w)
    ensures AllWhiteSpace([c] + w) && AllWhiteSpace(w + [c])
  {
  }

  /** The input without its leading white space. */
  function TrimStart(s: string): (r: string)
    ensures |r| <= |s| && r == s[|s| - |r|..]
    ensures AllWhiteSpace(s[..|s| - |r|])
    ensures r == [] || !IsWhiteSpace(r[0])
  {
    if s != [] && IsWhiteSpace(s[0]) then
      var r := TrimStart(s[1..]);
      var skipped := s[1..][..|s| - 1 - |r|];
      assert s[1..][|s| - 1 - |r|..] == s[|s| - |r|..];
      assert s[..|s| - |r|] == [s[0]] + skipped;
      BlankAround(s[0], skipped);
      r
    else
      s
  }

  /** The input without its trailing white space. */
  function TrimEnd(s: string): (r: string)
    ensures |r| <= |s| && r == s[..|r|]
    ensures AllWhiteSpace(s[|r|..])
    ensures r == [] || !IsWhiteSpace(r[|r| - 1])
  {
    if s != [] && IsWhiteSpace(s[|s| - 1]) then
      var front := s[..|s| - 1];
      var r := TrimEnd(front);
      assert front[..|r|] == s[..|r|];
      assert s[|r|..] == front[|r|..] + [s[|s| - 1]];
      BlankAround(s[|s| - 1], front[|r|..]);
      r
    else
      s
  }

  /** `String.prototype.trim`: no white space is left at either end. */
  function Trim(s: string): (r: string)
    ensures |r| <= |s|
    ensures r == [] || (!IsWhiteSpace(r[0]) && !IsWhiteSpace(r[|r| - 1]))
  {
    TrimEnd(TrimStart(s))
  }

  /** A string trims to "" (the falsy string) exactly when it is all white space. */
  lemma TrimEmptyIffBlank(s: string)
    ensures Trim(s) == "" <==> AllWhiteSpace(s)
  {
    var t := TrimStart(s);
    if Trim(s) == "" {
      assert t[|TrimEnd(t)|..] == t;
      assert s[..|s|] == s;
    }
  }

  /** The value of a character read as a digit of radix up to 36; 36 for a non-digit. */
  function DigitValue(c: char): (v: nat)
    ensures v <= 36
  {
    if '0' <= c <= '9' then c as int - '0' as int
    else if 'a' <= c <= 'z' then c as int - 'a' as int + 10
    else if 'A' <= c <= 'Z' then c as int - 'A' as int + 10
    else 36
  }

  predicate IsDigit(c: char, radix: int) {
    DigitValue(c) < radix
  }

  predicate AllDigits(s: string, radix: int) {
    forall i :: 0 <= i < |s| ==> IsDigit(s[i], radix)
  }

  /** The lower-case digit `toString` writes for the value d. */
  function DigitChar(d: nat): (c: char)
    requires d < 36
    ensures DigitValue(c) == d
    ensures !('A' <= c <= 'Z')
  {
    if d < 10 then ('0' as int + d) as char else ('a' as int + d - 10) as char
  }

  /** Euclidean division by a radix. */
  lemma DivMod(n: nat, radix: nat)
    requires 2 <= radix
    ensures n == (n / radix) * radix + n % radix && 0 <= n % radix < radix
    ensures n >= radix ==> 1 <= n / radix < n
  {
    DivModBasic(n, radix);
    if n >= radix {
      MulMono(n / radix, radix);
    }
  }

  lemma DivModBasic(n: nat, radix: nat)
    requires 2 <= radix
    ensures n == (n / radix) * radix + n % radix && 0 <= n % radix < radix
  {
  }

  lemma MulMono(q: nat, r: nat)
    requires r >= 2
    ensures q * r >= q * 2
  {
  }

  /** The digits of n in the given radix, most significant first, as `toString(radix)` writes them. */
  function NatDigits(n: nat, radix: nat): (s: string)
    requires 2 <= radix <= 36
    ensures |s| >= 1 && AllDigits(s, radix)
    ensures s[0] == '0' ==> n == 0
    decreases n
  {
    if n < radix then [DigitChar(n)]
    else
      DivMod(n, radix);
      var front := NatDigits(n / radix, radix);
      var s := front + [DigitChar(n % radix)];
      assert s[0] == front[0];
      s
  }

  /** The value of a digit string, read most significant digit first. */
  function DigitsValue(s: string, radix: nat): nat {
    if s == [] then 0 else DigitsValue(s[..|s| - 1], radix) * radix + DigitValue(s[|s| - 1])
  }

  /** `Number.prototype.toString(radix)` for an integral number. */
  function NumberToString(n: int, radix: nat): string
    requires 2 <= radix <= 36
  {
    if n < 0 then "-" + NatDigits(-n, radix) else NatDigits(n, radix)
  }

  /** `toString(radix)` writes digits of the radix, after a '-' for a negative number. */
  lemma NumberToStringDigits(n: int, radix: nat)
    requires 2 <= radix <= 36
    ensures n >= 0 ==> |NumberToString(n, radix)| >= 1 && AllDigits(NumberToString(n, radix), radix)
    ensures n < 0 ==>
      |NumberToString(n, radix)| >= 2 && NumberToString(n, radix)[0] == '-' && AllDigits(NumberToString(n, radix)[1..], radix)
  {
    if n < 0 {
      assert NumberToString(n, radix)[1..] == NatDigits(-n, radix);
    }
  }

  /** The length of the longest prefix made of digits of the radix. */
  function DigitPrefixLength(s: string, radix: int): (k: nat)
    ensures k <= |s| && AllDigits(s[..k], radix)
    ensures k == |s| || !IsDigit(s[k], radix)
  {
    if s == [] || !IsDigit(s[0], radix) then 0
    else
      var k := 1 + DigitPrefixLength(s[1..], radix);
      assert s[..k] == [s[0]] + s[1..][..k - 1];
      k
  }

  /**
   * `parseInt(input, radix)`, with radix 0 standing for an absent radix; None is NaN.
   * Leading white space is skipped, one sign is read, an absent radix means 10,
   * and with radix 16 or an absent one a leading "0x" or "0X" switches to 16;
   * then the longest run of digits is read, and no digits at all is NaN.
   */
  function ParseInt(input: string, radix: int): (r: Option<int>)
    ensures radix != 0 && (radix < 2 || 36 < radix) ==> r == None
    ensures AllWhiteSpace(input) ==> r == None
  {
    ParseSigned(TrimStart(input), radix)
  }

  /** parseInt once the leading white space is gone: the radix check and the sign. */
  function ParseSigned(s: string, radix: int): (r: Option<int>)
    ensures radix != 0 && (radix < 2 || 36 < radix) ==> r == None
    ensures s == [] ==> r == None
    ensures r.Some? && r.value < 0 ==> s[0] == '-'
  {
    if radix != 0 && (radix < 2 || 36 < radix) then None
    else
      var sign := if s != [] && s[0] == '-' then -1 else 1;
      var unsigned := if s != [] && (s[0] == '+' || s[0] == '-') then s[1..] else s;
      match ParseMagnitude(unsigned, radix)
      case None => None
      case Some(m) => Some(sign * m)
  }

  /** parseInt after the sign: the "0x" prefix, then the longest run of digits. */
  function ParseMagnitude(u: string, radix: int): (r: Option<nat>)
    requires radix == 0 || 2 <= radix <= 36
    ensures r.Some? ==> u != [] && IsDigit(u[0], if radix == 0 then 10 else radix)
    ensures (u != [] && IsDigit(u[0], if radix == 0 then 10 else radix)
             && !(|u| >= 2 && u[0] == '0' && (u[1] == 'x' || u[1] == 'X'))) ==> r.Some?
  {
    var hexPrefix := (radix == 0 || radix == 16) && |u| >= 2
      && u[0] == '0' && (u[1] == 'x' || u[1] == 'X');
    var base := if hexPrefix then 16 else if radix == 0 then 10 else radix;
    var body := if hexPrefix then u[2..] else u;
    var end := DigitPrefixLength(body, base);
    if end == 0 then None else Some(DigitsValue(body[..end], base))
  }

  /** Reading back the digits `toString(radix)` writes gives the number again. */
  lemma {:induction false} NatDigitsRoundTrip(n: nat, radix: nat)
    requires 2 <= radix <= 36
    ensures DigitsValue(NatDigits(n, radix), radix) == n
    decreases n
  {
    if n >= radix {
      DivMod(n, radix);
      var front := NatDigits(n / radix, radix);
      var s := front + [DigitChar(n % radix)];
      assert s[..|s| - 1] == front;
      NatDigitsRoundTrip(n / radix, radix);
    }
  }

  lemma {:induction false} DigitPrefixOfDigits(d: string, t: string, radix: int)
    requires AllDigits(d, radix)
    requires t == [] || !IsDigit(t[0], radix)
    ensures DigitPrefixLength(d + t, radix) == |d|
  {
    if d != [] {
      assert (d + t)[1..] == d[1..] + t;
      DigitPrefixOfDigits(d[1..], t, radix);
    }
  }

  lemma {:induction false} TrimStartSkipsBlank(ws: string, x: string)
    requires AllWhiteSpace(ws)
    requires x == [] || !IsWhiteSpace(x[0])
    ensures TrimStart(ws + x) == x
  {
    if ws != [] {
      assert (ws + x)[1..] == ws[1..] + x;
      TrimStartSkipsBlank(ws[1..], x);
    }
  }

  lemma MagnitudeOfDecimal(d: string, t: string)
    requires |d| >= 1 && AllDigits(d, 10)
    requires t == [] || !IsDigit(t[0], 10)
    requires !(d == "0" && t != [] && (t[0] == 'x' || t[0] == 'X'))
    ensures ParseMagnitude(d + t, 0) == Some(DigitsValue(d, 10))
  {
    var u := d + t;
    assert |u| >= 2 ==> u[1] == (if |d| >= 2 then d[1] else t[0]);
    DigitPrefixOfDigits(d, t, 10);
    assert u[..|d|] == d;
  }

  lemma FirstIsNotBlank(sign: string, d: string, t: string)
    requires sign == "" || sign == "+" || sign == "-"
    requires |d| >= 1 && AllDigits(d, 10)
    ensures (sign + (d + t))[0] == (if sign == "" then d[0] else sign[0])
    ensures !IsWhiteSpace((sign + (d + t))[0])
    ensures (d + t)[0] != '+' && (d + t)[0] != '-'
  {
    assert IsDigit(d[0], 10);
  }

  lemma SignedMagnitude(sign: string, u: string, m: nat, radix: int)
    requires sign == "" || sign == "+" || sign == "-"
    requires u != [] && u[0] != '+' && u[0] != '-'
    requires radix == 0 || 2 <= radix <= 36
    requires ParseMagnitude(u, radix) == Some(m)
    ensures ParseSigned(sign + u, radix) == Some((if sign == "-" then -1 else 1) * m)
  {
    if sign != "" {
      assert (sign + u)[1..] == u;
    } else {
      assert sign + u == u;
    }
  }

  /**
   * parseInt without a radix reads the leading decimal integer: white space,
   * then an optional sign, then decimal digits, whatever follows them.
   */
  lemma ParseIntLeadingDecimal(ws: string, sign: string, d: string, t: string)
    requires AllWhiteSpace(ws)
    requires sign == "" || sign == "+" || sign == "-"
    requires |d| >= 1 && AllDigits(d, 10)
    requires t == [] || !IsDigit(t[0], 10)
    requires !(d == "0" && t != [] && (t[0] == 'x' || t[0] == 'X'))
    ensures ParseInt(ws + (sign + (d + t)), 0) == Some((if sign == "-" then -1 else 1) * DigitsValue(d, 10))
  {
    var u := d + t;
    var x := sign + u;
    FirstIsNotBlank(sign, d, t);
    TrimStartSkipsBlank(ws, x);
    assert ParseInt(ws + x, 0) == ParseSigned(x, 0);
    MagnitudeOfDecimal(d, t);
    SignedMagnitude(sign, u, DigitsValue(d, 10), 0);
  }

  /**
   * With radix 16 or without one, parseInt reads a "0x" or "0X" prefix after
   * the white space and the sign as hexadecimal: the digits that follow are
   * read in base 16, whatever follows them.
   */
  lemma ParseIntLeadingHex(ws: string, sign: string, x: char, d: string, t: string, radix: int)
    requires radix == 0 || radix == 16
    requires AllWhiteSpace(ws)
    requires sign == "" || sign == "+" || sign == "-"
    requires x == 'x' || x == 'X'
    requires |d| >= 1 && AllDigits(d, 16)
    requires t == [] || !IsDigit(t[0], 16)
    ensures ParseInt(ws + (sign + (['0', x] + (d + t))), radix) == Some((if sign == "-" then -1 else 1) * DigitsValue(d, 16))
  {
    var u := ['0', x] + (d + t);
    var y := sign + u;
    assert y[0] == (if sign == "" then '0' else sign[0]);
    TrimStartSkipsBlank(ws, y);
    HexMagnitude(x, d, t, radix);
    SignedMagnitude(sign, u, DigitsValue(d, 16), radix);
  }

  lemma HexMagnitude(x: char, d: string, t: string, radix: int)
    requires radix == 0 || radix == 16
    requires x == 'x' || x == 'X'
    requires |d| >= 1 && AllDigits(d, 16)
    requires t == [] || !IsDigit(t[0], 16)
    ensures ParseMagnitude(['0', x] + (d + t), radix) == Some(DigitsValue(d, 16))
  {
    var u := ['0', x] + (d + t);
    assert u[0] == '0' && u[1] == x && u[2..] == d + t;
    DigitPrefixOfDigits(d, t, 16);
    assert (d + t)[..|d|] == d;
  }

  /** A string that does not begin with white space, a sign or a decimal digit parses to NaN. */
  lemma ParseIntNoDigits(s: string)
    requires s == [] || (!IsWhiteSpace(s[0]) && s[0] != '+' && s[0] != '-' && !IsDigit(s[0], 10))
    ensures ParseInt(s, 0) == None
  {
    TrimStartSkipsBlank("", s);
    assert "" + s == s;
  }

  lemma EmptyEnds(sign: string, d: string)
    ensures "" + (sign + (d + "")) == sign + d
  {
    assert d + "" == d;
  }

  /** parseInt without a radix reads back the decimal `toString` of every integer. */
  lemma DecimalRoundTrip(n: int)
    ensures ParseInt(NumberToString(n, 10), 0) == Some(n)
  {
    if n < 0 {
      NegativeDecimalRoundTrip(n);
    } else {
      NonNegativeDecimalRoundTrip(n);
    }
  }

  lemma NegativeDecimalRoundTrip(n: int)
    requires n < 0
    ensures ParseInt(NumberToString(n, 10), 0) == Some(n)
  {
    var m: nat := -n;
    SignedDecimalRoundTrip("-", m);
    assert (if "-" == "-" then -1 else 1) * m == n;
    assert NumberToString(n, 10) == "-" + NatDigits(m, 10);
  }

  lemma NonNegativeDecimalRoundTrip(n: int)
    requires n >= 0
    ensures ParseInt(NumberToString(n, 10), 0) == Some(n)
  {
    var s := "" + NatDigits(n, 10);
    assert NumberToString(n, 10) == s;
    SignedDecimalRoundTrip("", n);
    assert ParseInt(s, 0) == Some(n);
  }

  lemma SignedDecimalRoundTrip(sign: string, m: nat)
    requires sign == "" || sign == "-"
    ensures ParseInt(sign + NatDigits(m, 10), 0) == Some((if sign == "-" then -1 else 1) * m)
  {
    var d := NatDigits(m, 10);
    NatDigitsRoundTrip(m, 10);
    ParseIntLeadingDecimal("", sign, d, "");
    EmptyEnds(sign, d);
  }

  /** `parseInt("0x" + n.toString(16), 16)` gives back every non-negative n ... */
  lemma HexRoundTrip(n: nat)
    ensures ParseInt("0x" + NumberToString(n, 16), 16) == Some(n)
  {
    var d := NatDigits(n, 16);
    var s := "0x" + d;
    assert NumberToString(n, 16) == d;
    PrefixedHex(d);
    NatDigitsRoundTrip(n, 16);
    assert ParseInt(s, 16) == Some(DigitsValue(d, 16));
  }

  /** "0x" and hexadecimal digits, read with radix 16. */
  lemma PrefixedHex(d: string)
    requires |d| >= 1 && AllDigits(d, 16)
    ensures ParseInt("0x" + d, 16) == Some(DigitsValue(d, 16))
  {
    UnsignedInput("0x" + d, 16);
    PrefixedHexMagnitude(d);
  }

  /** Input that starts with neither white space nor a sign goes straight to the digits. */
  lemma UnsignedInput(s: string, radix: int)
    requires |s| >= 1 && s[0] == '0' && 2 <= radix <= 36
    ensures ParseMagnitude(s, radix).Some? ==> ParseInt(s, radix) == Some(ParseMagnitude(s, radix).value)
  {
    TrimStartSkipsBlank("", s);
    assert "" + s == s;
  }

  lemma PrefixedHexMagnitude(d: string)
    requires |d| >= 1 && AllDigits(d, 16)
    ensures ParseMagnitude("0x" + d, 16) == Some(DigitsValue(d, 16))
  {
    var s := "0x" + d;
    assert s[0] == '0' && s[1] == 'x' && s[2..] == d;
    DigitPrefixOfDigits(d, "", 16);
    assert d + "" == d;
    assert d[..|d|] == d;
  }

  /** ... and NaN for a negative one, whose digits come after a '-' that follows the prefix. */
  lemma HexOfNegativeIsNaN(n: int)
    requires n < 0
    ensures ParseInt("0x" + NumberToString(n, 16), 16) == None
  {
    var s := "0x" + NumberToString(n, 16);
    TrimStartSkipsBlank("", s);
    assert "" + s == s;
    assert s[2..][0] == '-';
  }
}
