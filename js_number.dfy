/**
 * The JavaScript number semantics the scripts rely on: the global functions
 * `parseFloat` and `parseInt` (without a radix), the truthiness test behind
 * `x || d`, and the relational operator `>=`.  Section numbers refer to
 * ECMA-262 (ECMAScript 2023).  A JavaScript number is modelled over exact
 * reals, as a real or one of the two infinities or NaN: IEEE-754 rounding,
 * overflow to Infinity and -0 are not modelled.
 */
module JsNumber {
  import opened Wrappers

  /** A JavaScript number value. */
  datatype Num = Finite(value: real) | PlusInfinity | MinusInfinity | NaN

  /** ToBoolean on a number (section 7.1.2): false exactly for NaN, +0 and -0. */
  predicate Truthy(n: Num): (b: bool)
    ensures n.NaN? ==> !b
    ensures n.PlusInfinity? || n.MinusInfinity? ==> b
    ensures n.Finite? ==> (b <==> n.value != 0.0)
  {
    !n.NaN? && n != Finite(0.0)
  }

  /** `n || 0`: a falsy number is replaced by 0. */
  function OrZero(n: Num): (r: Num)
    ensures !r.NaN?
    ensures Truthy(n) ==> r == n
    ensures !Truthy(n) ==> r == Finite(0.0)
  {
    if Truthy(n) then n else Finite(0.0)
  }

  /** `a >= b` on numbers (section 7.2.13): false when either side is NaN. */
  predicate GreaterOrEqual(a: Num, b: Num): (r: bool)
    ensures a.NaN? || b.NaN? ==> !r
    ensures a.Finite? && b.Finite? ==> (r <==> a.value >= b.value)
    ensures a.PlusInfinity? && !b.NaN? ==> r
    ensures b.PlusInfinity? && r ==> a.PlusInfinity?
    ensures a.MinusInfinity? && r ==> b.MinusInfinity?
  {
    match (a, b)
    case (NaN, _) => false
    case (_, NaN) => false
    case (PlusInfinity, _) => true
    case (_, MinusInfinity) => true
    case (MinusInfinity, _) => false
    case (_, PlusInfinity) => false
    case (Finite(x), Finite(y)) => x >= y
  }

  /** `>=` never holds when either operand is NaN, and is otherwise a total order. */
  lemma GreaterOrEqualTotal(a: Num, b: Num)
    ensures (a.NaN? || b.NaN?) ==> !GreaterOrEqual(a, b) && !GreaterOrEqual(b, a)
    ensures (!a.NaN? && !b.NaN?) ==> GreaterOrEqual(a, b) || GreaterOrEqual(b, a)
  {
  }

  // ---------------------------------------------------------------------
  // Characters

  /** StrWhiteSpaceChar (section 7.1.4.1.1): WhiteSpace (12.2) and LineTerminator (12.3). */
  predicate IsWhiteSpace(c: char) {
    || c == '\t' || c == '\U{000B}' || c == '\U{000C}' || c == ' ' || c == '\U{00A0}' || c == '\U{FEFF}'
    || c == '\U{1680}' || ('\U{2000}' <= c <= '\U{200A}') || c == '\U{202F}' || c == '\U{205F}' || c == '\U{3000}'
    || c == '\n' || c == '\r' || c == '\U{2028}' || c == '\U{2029}'
  }

  /** The value of a digit in the sense of `parseInt` (digits, then letters a-z / A-Z from 10); 36 for any other character. */
  function DigitOf(c: char): (d: nat)
    ensures d <= 36
  {
    if '0' <= c <= '9' then c as int - '0' as int
    else if 'a' <= c <= 'z' then c as int - 'a' as int + 10
    else if 'A' <= c <= 'Z' then c as int - 'A' as int + 10
    else 36
  }

  predicate IsDigit(c: char, radix: nat) {
    DigitOf(c) < radix
  }

  /** The decimal digit character for `d`. */
  function DigitChar(d: nat): (c: char)
    requires d < 10
    ensures DigitOf(c) == d
  {
    ('0' as int + d) as char
  }

  // ---------------------------------------------------------------------
  // Scanning

  /** TrimString(s, start): drops the leading white space. */
  function TrimStart(s: string): (r: string)
    ensures |r| <= |s| && r == s[|s| - |r|..]
    ensures forall k :: 0 <= k < |s| - |r| ==> IsWhiteSpace(s[k])
    ensures r == [] || !IsWhiteSpace(r[0])
  {
    if |s| > 0 && IsWhiteSpace(s[0]) then TrimStart(s[1..]) else s
  }

  /** The length of the longest prefix of `s` made of digits of `radix`. */
  function DigitRun(s: string, radix: nat): (n: nat)
    ensures n <= |s|
    ensures forall k :: 0 <= k < n ==> IsDigit(s[k], radix)
    ensures n < |s| ==> !IsDigit(s[n], radix)
  {
    if |s| > 0 && IsDigit(s[0], radix) then 1 + DigitRun(s[1..], radix) else 0
  }

  /** The mathematical value of a digit string, most significant digit first. */
  function DigitsValue(s: string, radix: nat): nat {
    if |s| == 0 then 0 else DigitsValue(s[..|s| - 1], radix) * radix + DigitOf(s[|s| - 1])
  }

  function Pow10(n: nat): (r: nat)
    ensures r >= 1
  {
    if n == 0 then 1 else 10 * Pow10(n - 1)
  }

  /** x * 10^e for an integer exponent e. */
  function Scale(x: real, e: int): real {
    if e >= 0 then x * Pow10(e) as real else x / Pow10(-e) as real
  }

  lemma ScaleByZero(x: real)
    ensures Scale(x, 0) == x
  {
    assert Pow10(0) == 1;
  }

  /** The value 0.d1...dn of the digits d1...dn after a decimal point. */
  function FractionValue(digits: string): real {
    DigitsValue(digits, 10) as real / Pow10(|digits|) as real
  }

  predicate IsSign(c: char) {
    c == '+' || c == '-'
  }

  /** `t` without its leading sign, if it has one. */
  function Unsigned(t: string): string {
    if |t| > 0 && IsSign(t[0]) then t[1..] else t
  }

  predicate IsNegative(t: string) {
    |t| > 0 && t[0] == '-'
  }

  predicate StartsWithInfinity(u: string) {
    |u| >= 8 && u[..8] == "Infinity"
  }

  /** The value of an ExponentPart at the start of `s`, or 0 when `s` does not start with one. */
  function ExponentOf(s: string): int {
    if |s| == 0 || (s[0] != 'e' && s[0] != 'E') then 0
    else
      var d := Unsigned(s[1..]);
      var n := DigitRun(d, 10);
      var v: int := DigitsValue(d[..n], 10);
      if IsNegative(s[1..]) then -v else v
  }

  // ---------------------------------------------------------------------
  // parseFloat (section 19.2.4)

  /** Whether an unsigned text starts with a digit, or with a point and a digit. */
  predicate StartsWithDigits(u: string) {
    || (|u| > 0 && IsDigit(u[0], 10))
    || (|u| > 1 && u[0] == '.' && IsDigit(u[1], 10))
  }

  /**
   * The value of the longest prefix of `u` of the form
   * DecimalDigits [. DecimalDigits] [ExponentPart] or . DecimalDigits [ExponentPart],
   * and None when there is no such prefix.
   */
  function UnsignedDecimal(u: string): (r: Option<real>)
    ensures r.None? <==> !StartsWithDigits(u)
  {
    var i := DigitRun(u, 10);
    var hasPoint := i < |u| && u[i] == '.';
    var f := if hasPoint then DigitRun(u[i + 1..], 10) else 0;
    if i == 0 && f == 0 then
      assert |u| > 1 && u[0] == '.' ==> !IsDigit(u[1..][0], 10);
      None
    else
      var whole := DigitsValue(u[..i], 10) as real;
      var fraction := if hasPoint then FractionValue(u[i + 1..i + 1 + f]) else 0.0;
      var rest := if hasPoint then u[i + 1 + f..] else u[i..];
      Some(Scale(whole + fraction, ExponentOf(rest)))
  }

  /**
   * Whether some prefix of the trimmed text is a StrDecimalLiteral: after an
   * optional sign it reads "Infinity", a digit, or a point followed by a digit.
   */
  predicate HasDecimalPrefix(s: string) {
    var u := Unsigned(TrimStart(s));
    StartsWithInfinity(u) || StartsWithDigits(u)
  }

  /**
   * The value of the longest StrDecimalLiteral at the start of a text that
   * has no leading white space, and NaN when there is none.
   */
  function DecimalOfTrimmed(t: string): (r: Num)
    ensures r.NaN? <==> !(StartsWithInfinity(Unsigned(t)) || StartsWithDigits(Unsigned(t)))
    ensures r.PlusInfinity? || r.MinusInfinity? ==> StartsWithInfinity(Unsigned(t))
  {
    var u := Unsigned(t);
    if StartsWithInfinity(u) then
      (if IsNegative(t) then MinusInfinity else PlusInfinity)
    else
      match UnsignedDecimal(u)
      case None => NaN
      case Some(m) => Finite(if IsNegative(t) then -m else m)
  }

  /**
   * `parseFloat(s)`: the value of the longest prefix of the trimmed text that
   * is a StrDecimalLiteral, and NaN when there is none.
   */
  function ParseFloat(s: string): (r: Num)
    ensures r.NaN? <==> !HasDecimalPrefix(s)
    ensures r.PlusInfinity? || r.MinusInfinity? ==> StartsWithInfinity(Unsigned(TrimStart(s)))
  {
    DecimalOfTrimmed(TrimStart(s))
  }

  // ---------------------------------------------------------------------
  // parseInt without a radix (section 19.2.5)

  /** Whether the text starts with "0x" or "0X". */
  predicate HasHexPrefix(u: string) {
    |u| >= 2 && u[0] == '0' && (u[1] == 'x' || u[1] == 'X')
  }

  /**
   * Whether `parseInt` finds digits in an unsigned text: after an optional
   * "0x" prefix, it starts with a digit of the radix.
   */
  predicate StartsWithRadixDigits(u: string) {
    if HasHexPrefix(u) then |u| > 2 && IsDigit(u[2], 16) else |u| > 0 && IsDigit(u[0], 10)
  }

  /** The value of the longest run of radix digits after the optional "0x" prefix, or None. */
  function UnsignedInteger(u: string): (r: Option<nat>)
    ensures r.None? <==> !StartsWithRadixDigits(u)
  {
    var radix := if HasHexPrefix(u) then 16 else 10;
    var digits := if HasHexPrefix(u) then u[2..] else u;
    var n := DigitRun(digits, radix);
    if n == 0 then None else Some(DigitsValue(digits[..n], radix))
  }

  /** Whether `parseInt` finds digits after white space and an optional sign. */
  predicate HasIntegerPrefix(s: string) {
    StartsWithRadixDigits(Unsigned(TrimStart(s)))
  }

  /** The integer `parseInt` reads from a text that has no leading white space, and NaN without digits. */
  function IntegerOfTrimmed(t: string): (r: Num)
    ensures r.NaN? <==> !StartsWithRadixDigits(Unsigned(t))
    ensures !r.PlusInfinity? && !r.MinusInfinity?
    ensures r.Finite? ==> r.value == r.value.Floor as real
  {
    match UnsignedInteger(Unsigned(t))
    case None => NaN
    case Some(m) =>
      var v: int := if IsNegative(t) then -(m as int) else m;
      Finite(v as real)
  }

  /** `parseInt(s)`: radix 16 after a "0x" prefix, 10 otherwise; NaN without digits. */
  function ParseInt(s: string): (r: Num)
    ensures r.NaN? <==> !HasIntegerPrefix(s)
    ensures !r.PlusInfinity? && !r.MinusInfinity?
    ensures r.Finite? ==> r.value == r.value.Floor as real
  {
    IntegerOfTrimmed(TrimStart(s))
  }

  // ---------------------------------------------------------------------
  // Decimal rendering, the inverse the parsers are checked against

  /** The shortest decimal rendering of a natural number. */
  function Render(n: nat): (s: string)
    ensures |s| >= 1
  {
    if n < 10 then [DigitChar(n)] else Render(n / 10) + [DigitChar(n % 10)]
  }

  lemma {:induction false} RenderDigits(n: nat)
    ensures forall k :: 0 <= k < |Render(n)| ==> IsDigit(Render(n)[k], 10)
    ensures DigitsValue(Render(n), 10) == n
  {
    if n >= 10 {
      RenderDigits(n / 10);
      var s := Render(n);
      assert s[..|s| - 1] == Render(n / 10);
    }
  }

  lemma DecimalDigitIsAscii(c: char)
    requires IsDigit(c, 10)
    ensures '0' <= c <= '9'
  {
  }

  /** The digit run of an all-digit text is the whole text. */
  lemma AllDigitsRun(s: string, radix: nat)
    requires forall k :: 0 <= k < |s| ==> IsDigit(s[k], radix)
    ensures DigitRun(s, radix) == |s|
  {
  }

  /** A text that starts with a decimal digit has no white space or sign in front. */
  lemma DigitStartIsUnsigned(s: string)
    requires |s| >= 1 && IsDigit(s[0], 10)
    ensures TrimStart(s) == s && Unsigned(s) == s
  {
    DecimalDigitIsAscii(s[0]);
  }

  /** A text that starts with a decimal digit is not "Infinity". */
  lemma DigitStartIsFinite(s: string)
    requires |s| >= 1 && IsDigit(s[0], 10)
    ensures !StartsWithInfinity(s)
  {
    DecimalDigitIsAscii(s[0]);
    if |s| >= 8 {
      assert s[..8][0] == s[0];
    }
  }

  /** A text whose second character is a decimal digit has no "0x" prefix. */
  lemma DigitSecondIsNotHex(s: string)
    requires |s| >= 2 && IsDigit(s[1], 10)
    ensures !HasHexPrefix(s)
  {
    DecimalDigitIsAscii(s[1]);
  }

  /** A rendering is a plain, all-digit text whose value is the number rendered. */
  lemma RenderIsPlain(n: nat)
    ensures TrimStart(Render(n)) == Render(n) && Unsigned(Render(n)) == Render(n)
    ensures !StartsWithInfinity(Render(n)) && !HasHexPrefix(Render(n))
    ensures DigitRun(Render(n), 10) == |Render(n)|
    ensures DigitsValue(Render(n), 10) == n
  {
    RenderDigits(n);
    AllDigitsRun(Render(n), 10);
    DigitStartIsUnsigned(Render(n));
    DigitStartIsFinite(Render(n));
    if |Render(n)| >= 2 {
      DigitSecondIsNotHex(Render(n));
    }
  }

  /** A non-empty all-digit text is read whole as an unsigned decimal. */
  lemma DigitsParseAsDecimal(s: string)
    requires |s| >= 1 && DigitRun(s, 10) == |s|
    ensures UnsignedDecimal(s) == Some(DigitsValue(s, 10) as real)
  {
    var i := DigitRun(s, 10);
    assert s[..i] == s;
    assert ExponentOf(s[i..]) == 0 by {
      assert s[i..] == [];
    }
    ScaleByZero(DigitsValue(s, 10) as real + 0.0);
  }

  /** A non-empty all-digit text without a "0x" prefix is read whole as a decimal integer. */
  lemma DigitsParseAsInteger(s: string)
    requires |s| >= 1 && DigitRun(s, 10) == |s| && !HasHexPrefix(s)
    ensures UnsignedInteger(s) == Some(DigitsValue(s, 10))
  {
    assert s[..|s|] == s;
  }

  /** Both parsers read a rendered natural number back exactly. */
  lemma RenderRoundTrip(n: nat)
    ensures ParseFloat(Render(n)) == Finite(n as real)
    ensures ParseInt(Render(n)) == Finite(n as real)
  {
    RenderIsPlain(n);
    DigitsParseAsDecimal(Render(n));
    DigitsParseAsInteger(Render(n));
  }

  /** Trimming skips any run of leading white space. */
  lemma {:induction false} TrimStartSkipsWhiteSpace(ws: string, s: string)
    requires forall k :: 0 <= k < |ws| ==> IsWhiteSpace(ws[k])
    ensures TrimStart(ws + s) == TrimStart(s)
  {
    if |ws| > 0 {
      assert (ws + s)[0] == ws[0];
      assert (ws + s)[1..] == ws[1..] + s;
      TrimStartSkipsWhiteSpace(ws[1..], s);
    } else {
      assert ws + s == s;
    }
  }

  /** Leading white space does not change what `parseFloat` reads. */
  lemma WhiteSpaceIsIgnoredByParseFloat(ws: string, s: string)
    requires forall k :: 0 <= k < |ws| ==> IsWhiteSpace(ws[k])
    ensures ParseFloat(ws + s) == ParseFloat(s)
  {
    TrimStartSkipsWhiteSpace(ws, s);
  }

  /** Leading white space does not change what `parseInt` reads. */
  lemma WhiteSpaceIsIgnoredByParseInt(ws: string, s: string)
    requires forall k :: 0 <= k < |ws| ==> IsWhiteSpace(ws[k])
    ensures ParseInt(ws + s) == ParseInt(s)
  {
    TrimStartSkipsWhiteSpace(ws, s);
  }

  /** A sign in front of a text that starts with a digit is kept apart from it by trimming and unsigning. */
  lemma SignedText(sign: char, d: string)
    requires IsSign(sign) && |d| >= 1 && IsDigit(d[0], 10)
    ensures var s := [sign] + d; TrimStart(s) == s && Unsigned(s) == d && (IsNegative(s) <==> sign == '-')
  {
    var s := [sign] + d;
    assert s[0] == sign && s[1..] == d;
  }

  /** `parseInt` reads a rendered natural number after a minus sign as its negation. */
  lemma NegativeRenderParsesAsInteger(n: nat)
    ensures ParseInt("-" + Render(n)) == Finite(-(n as real))
  {
    RenderIsPlain(n);
    DigitsParseAsInteger(Render(n));
    SignedText('-', Render(n));
  }

  /** `parseInt` reads a rendered natural number after a plus sign as that number. */
  lemma PositiveRenderParsesAsInteger(n: nat)
    ensures ParseInt("+" + Render(n)) == Finite(n as real)
  {
    RenderIsPlain(n);
    DigitsParseAsInteger(Render(n));
    SignedText('+', Render(n));
  }

  /**
   * `parseInt` stops at the first character that is not a decimal digit; only
   * an 'x' right after the rendering "0" would read as the hexadecimal prefix.
   */
  lemma IntegerStopsAtNonDigit(n: nat, rest: string)
    requires rest == [] || !IsDigit(rest[0], 10)
    requires n == 0 && rest != [] ==> rest[0] != 'x' && rest[0] != 'X'
    ensures ParseInt(Render(n) + rest) == Finite(n as real)
  {
    RenderDigits(n);
    RenderThenNonDigitIsNotHex(n, rest);
    DigitsThenStopParseAsInteger(Render(n), rest);
  }

  /** Only the rendering "0" followed by an 'x' looks like the "0x" prefix. */
  lemma RenderThenNonDigitIsNotHex(n: nat, rest: string)
    requires rest == [] || !IsDigit(rest[0], 10)
    requires n == 0 && rest != [] ==> rest[0] != 'x' && rest[0] != 'X'
    ensures !HasHexPrefix(Render(n) + rest)
  {
    var r := Render(n);
    var s := r + rest;
    RenderDigits(n);
    if |r| >= 2 {
      assert s[1] == r[1];
      DigitSecondIsNotHex(s);
    } else if |s| >= 2 && n != 0 {
      assert s[0] == r[0];
      NonZeroDigitRender(n);
    } else if |s| >= 2 {
      assert s[1] == rest[0];
    }
  }

  /** A one-digit rendering of a non-zero number does not start with '0'. */
  lemma NonZeroDigitRender(n: nat)
    requires |Render(n)| == 1 && n != 0
    ensures Render(n)[0] != '0'
  {
    RenderDigits(n);
    assert Render(n)[..0] == [];
    assert DigitOf(Render(n)[0]) == n;
  }

  /** An all-digit text followed by a non-digit, without a "0x" prefix, is read up to that non-digit. */
  lemma DigitsThenStopParseAsInteger(d: string, rest: string)
    requires |d| >= 1 && forall k :: 0 <= k < |d| ==> IsDigit(d[k], 10)
    requires rest == [] || !IsDigit(rest[0], 10)
    requires !HasHexPrefix(d + rest)
    ensures ParseInt(d + rest) == Finite(DigitsValue(d, 10) as real)
  {
    var s := d + rest;
    assert s[0] == d[0];
    DigitStartIsUnsigned(s);
    DecimalDigitIsAscii(s[0]);
    DigitRunOfPrefix(d, rest, 10);
    assert s[..|d|] == d;
    assert UnsignedInteger(s) == Some(DigitsValue(d, 10));
  }

  /** The digit run of an all-digit text followed by a non-digit is that text. */
  lemma {:induction false} DigitRunOfPrefix(d: string, rest: string, radix: nat)
    requires forall k :: 0 <= k < |d| ==> IsDigit(d[k], radix)
    requires rest == [] || !IsDigit(rest[0], radix)
    ensures DigitRun(d + rest, radix) == |d|
  {
    if |d| > 0 {
      assert (d + rest)[0] == d[0];
      assert (d + rest)[1..] == d[1..] + rest;
      DigitRunOfPrefix(d[1..], rest, radix);
    } else {
      assert d + rest == rest;
    }
  }

  /** After "0x", `parseInt` reads a run of hexadecimal digits in radix 16. */
  lemma HexDigitsParseAsInteger(d: string)
    requires |d| >= 1 && forall k :: 0 <= k < |d| ==> IsDigit(d[k], 16)
    ensures ParseInt("0x" + d) == Finite(DigitsValue(d, 16) as real)
  {
    HexTextIsPlain(d);
    HexDigitsParseAsUnsigned(d);
  }

  /** A text that starts with "0x" has no white space or sign in front. */
  lemma HexTextIsPlain(d: string)
    ensures var s := "0x" + d; TrimStart(s) == s && Unsigned(s) == s && !IsNegative(s)
    ensures HasHexPrefix("0x" + d) && ("0x" + d)[2..] == d
  {
    var s := "0x" + d;
    assert s[0] == '0' && s[1] == 'x';
  }

  lemma HexDigitsParseAsUnsigned(d: string)
    requires |d| >= 1 && forall k :: 0 <= k < |d| ==> IsDigit(d[k], 16)
    ensures UnsignedInteger("0x" + d) == Some(DigitsValue(d, 16))
  {
    HexTextIsPlain(d);
    AllDigitsRun(d, 16);
    assert d[..|d|] == d;
  }

  lemma HexDigits89()
    ensures IsDigit("89"[0], 16) && IsDigit("89"[1], 16)
    ensures DigitsValue("89", 16) == 137
  {
    assert "89"[..1] == "8";
    assert "8"[..0] == "";
    assert DigitsValue("8", 16) == 8;
  }

  /** The chain id 137 written in hexadecimal. */
  lemma HexChainId()
    ensures ParseInt("0x89") == Finite(137.0)
  {
    assert "0x89" == "0x" + "89";
    HexDigits89();
    HexDigitsParseAsInteger("89");
  }

  /** A text that starts with a capital letter other than 'I' has no number in front. */
  lemma CapitalStartIsNaN(s: string)
    requires |s| > 0 && 'A' <= s[0] <= 'Z' && s[0] != 'I'
    ensures ParseFloat(s).NaN? && ParseInt(s).NaN?
  {
    assert !IsWhiteSpace(s[0]);
    assert TrimStart(s) == s && Unsigned(s) == s;
    assert !StartsWithInfinity(s) by {
      if |s| >= 8 { assert s[..8][0] == s[0]; }
    }
  }

  lemma RenderChainId()
    ensures Render(137) == "137"
  {
    assert Render(1) == "1";
    assert Render(13) == "13";
  }

  lemma RenderAmounts()
    ensures Render(500) == "500" && Render(1000) == "1000" && Render(1500) == "1500"
  {
    assert Render(1) == "1" && Render(5) == "5";
    assert Render(10) == "10" && Render(15) == "15" && Render(50) == "50";
    assert Render(100) == "100" && Render(150) == "150";
  }
}
