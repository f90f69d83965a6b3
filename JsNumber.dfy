/**
 * `parseInt(s)` (no radix) and `parseFloat(s)` as the ledger applies them to
 * the quantity and price strings a user typed, followed by `|| 0`, which turns
 * NaN into 0. Numbers are exact: `int` for parseInt, `real` for parseFloat.
 */
module JsNumber {
  import opened JsText

  /** The characters JavaScript's string-to-number conversions skip as leading white space. */
  predicate IsWhiteSpace(c: char) {
    || c == '\t' || c == '\n' || c == '\U{B}' || c == '\U{C}' || c == '\r' || c == ' '
    || c == '\U{A0}' || c == '\U{1680}' || ('\U{2000}' <= c <= '\U{200A}')
    || c == '\U{2028}' || c == '\U{2029}' || c == '\U{202F}' || c == '\U{205F}'
    || c == '\U{3000}' || c == '\U{FEFF}'
  }

  /** The string without its leading white space. */
  function TrimStart(s: string): (t: string)
    ensures |t| <= |s| && t == s[|s| - |t|..]
    ensures t == [] || !IsWhiteSpace(t[0])
    ensures forall i :: 0 <= i < |s| - |t| ==> IsWhiteSpace(s[i])
  {
    if s != [] && IsWhiteSpace(s[0]) then TrimStart(s[1..]) else s
  }

  /** The length of the longest prefix of s made of decimal digits. */
  function LeadingDigits(s: string): (n: nat)
    ensures n <= |s| && AllDigits(s[..n])
    ensures n < |s| ==> !IsDigit(s[n])
  {
    if s != [] && IsDigit(s[0]) then
      var n := 1 + LeadingDigits(s[1..]);
      assert forall i :: 1 <= i < n ==> s[..n][i] == s[1..][..n - 1][i - 1];
      n
    else 0
  }

  predicate IsHexDigit(c: char) {
    IsDigit(c) || 'a' <= c <= 'f' || 'A' <= c <= 'F'
  }

  predicate AllHexDigits(s: string) {
    forall i :: 0 <= i < |s| ==> IsHexDigit(s[i])
  }

  function HexDigitValue(c: char): (d: nat)
    requires IsHexDigit(c)
    ensures d < 16
  {
    if IsDigit(c) then DigitValue(c)
    else if 'a' <= c <= 'f' then c as int - 'a' as int + 10
    else c as int - 'A' as int + 10
  }

  /** The number a string of hexadecimal digits denotes. */
  function HexValue(s: string): nat
    requires AllHexDigits(s)
  {
    if s == [] then 0 else HexValue(s[..|s| - 1]) * 16 + HexDigitValue(s[|s| - 1])
  }

  /** The length of the longest prefix of s made of hexadecimal digits. */
  function LeadingHexDigits(s: string): (n: nat)
    ensures n <= |s| && AllHexDigits(s[..n])
    ensures n < |s| ==> !IsHexDigit(s[n])
  {
    if s != [] && IsHexDigit(s[0]) then
      var n := 1 + LeadingHexDigits(s[1..]);
      assert forall i :: 1 <= i < n ==> s[..n][i] == s[1..][..n - 1][i - 1];
      n
    else 0
  }

  predicate IsSign(c: char) {
    c == '+' || c == '-'
  }

  /** The string after one leading sign character, if there is one. */
  function DropSign(t: string): string {
    if t != [] && IsSign(t[0]) then t[1..] else t
  }

  /**
   * `parseInt(s)`: skip white space, take one sign, read a `0x`/`0X` prefix as
   * radix 16 and otherwise radix 10, then the longest run of digits of that
   * radix; `None` is NaN (no digit at all).
   */
  function ParseInt(s: string): Option<int> {
    var t := TrimStart(s);
    var sign := if t != [] && t[0] == '-' then -1 else 1;
    var u := DropSign(t);
    if |u| >= 2 && u[0] == '0' && (u[1] == 'x' || u[1] == 'X') then
      var n := LeadingHexDigits(u[2..]);
      if n == 0 then None else Some(sign * HexValue(u[2..][..n]))
    else
      var n := LeadingDigits(u);
      if n == 0 then None else Some(sign * DigitsValue(u[..n]))
  }

  /** `parseInt(s) || 0`. */
  function ParseIntOr0(s: string): int {
    match ParseInt(s)
    case None => 0
    case Some(v) => v
  }

  /** x times 10 to the power e; written with one multiplication or division by ten per step. */
  function Shift(x: real, e: int): real
    decreases if e >= 0 then e else -e
  {
    if e == 0 then x
    else if e > 0 then Shift(x, e - 1) * 10.0
    else Shift(x, e + 1) / 10.0
  }

  /** The value of the digits written after a decimal point: "05" is 0.05. */
  function FractionValue(f: string): (v: real)
    requires AllDigits(f)
    ensures 0.0 <= v <= 1.0
  {
    if f == [] then 0.0 else (DigitValue(f[0]) as real + FractionValue(f[1..])) / 10.0
  }

  /** The exponent part `e12`, `E-3`, ... at the start of rest; 0 when it is absent or has no digits. */
  function ExponentOf(rest: string): int {
    if rest != [] && (rest[0] == 'e' || rest[0] == 'E') then
      var v := rest[1..];
      var w := DropSign(v);
      var n := LeadingDigits(w);
      if n == 0 then 0
      else if v[0] == '-' then -(DigitsValue(w[..n]) as int)
      else DigitsValue(w[..n])
    else 0
  }

  /** A decimal literal as parseFloat reads it: `whole.fraction` times 10 to the power exponent. */
  datatype Literal = Literal(whole: string, fraction: string, exponent: int)

  predicate WellFormed(l: Literal) {
    AllDigits(l.whole) && AllDigits(l.fraction) && (l.whole != [] || l.fraction != [])
  }

  /**
   * The longest unsigned decimal literal `digits [. digits] [e [sign] digits]` at
   * the start of u, with at least one digit before or after the point; `None`
   * when there is none.
   */
  function ScanDecimal(u: string): (r: Option<Literal>)
    ensures r.Some? ==> WellFormed(r.value)
  {
    var i := LeadingDigits(u);
    var hasPoint := i < |u| && u[i] == '.';
    var f := if hasPoint then LeadingDigits(u[i + 1..]) else 0;
    if i == 0 && f == 0 then None
    else
      var fraction := if hasPoint then u[i + 1..][..f] else "";
      var rest := if hasPoint then u[i + 1 + f..] else u[i..];
      Some(Literal(u[..i], fraction, ExponentOf(rest)))
  }

  /** The number a literal denotes. */
  function LiteralValue(l: Literal): real
    requires WellFormed(l)
  {
    Shift(DigitsValue(l.whole) as real + FractionValue(l.fraction), l.exponent)
  }

  /** `parseFloat(s)`: skip white space, take one sign, then an unsigned decimal literal; `None` is NaN. */
  function ParseFloat(s: string): Option<real> {
    var t := TrimStart(s);
    match ScanDecimal(DropSign(t))
    case None => None
    case Some(l) => Some(if t != [] && t[0] == '-' then -LiteralValue(l) else LiteralValue(l))
  }

  /** `parseFloat(s) || 0`. */
  function ParseFloatOr0(s: string): real {
    match ParseFloat(s)
    case None => 0.0
    case Some(v) => v
  }

  lemma AllDigitsRun(s: string)
    requires AllDigits(s)
    ensures LeadingDigits(s) == |s| && s[..|s|] == s
  {
    if s != [] {
      AllDigitsRun(s[1..]);
    }
  }

  /** parseInt reads back what `String(n)` wrote, also with a minus sign in front. */
  lemma ParseIntDecimal(n: nat)
    ensures ParseInt(DecimalString(n)) == Some(n)
    ensures ParseInt("-" + DecimalString(n)) == Some(-(n as int))
  {
    var d := DecimalString(n);
    AllDigitsRun(d);
    assert !IsWhiteSpace(d[0]) && !IsSign(d[0]);
    assert TrimStart(d) == d;
    assert DropSign(d) == d;
    var m := "-" + d;
    assert m[1..] == d;
    assert TrimStart(m) == m;
    assert DropSign(m) == d;
  }

  /** parseInt stops at the first character that is not a digit: `parseInt("12kg")` is 12. */
  lemma {:induction false} ParseIntIgnoresSuffix(n: nat, tail: string)
    requires tail == [] || !IsDigit(tail[0])
    requires n == 0 ==> tail == [] || (tail[0] != 'x' && tail[0] != 'X')
    ensures ParseInt(DecimalString(n) + tail) == Some(n)
  {
    var d := DecimalString(n);
    var s := d + tail;
    AllDigitsRun(d);
    assert s[0] == d[0];
    assert !IsWhiteSpace(s[0]) && !IsSign(s[0]);
    assert TrimStart(s) == s;
    assert DropSign(s) == s;
    if |s| >= 2 && s[0] == '0' {
      assert |d| == 1;
      assert d == "0";
      assert n == 0 by { assert DigitsValue(d) == DigitsValue([]) * 10 + DigitValue('0'); }
      assert s[1] == tail[0];
    }
    LeadingDigitsSuffix(d, tail);
    assert s[..|d|] == d;
  }

  lemma {:induction false} LeadingDigitsSuffix(d: string, tail: string)
    requires AllDigits(d)
    requires tail == [] || !IsDigit(tail[0])
    ensures LeadingDigits(d + tail) == |d|
  {
    if d == [] {
      assert d + tail == tail;
    } else {
      LeadingDigitsSuffix(d[1..], tail);
      assert (d + tail)[1..] == d[1..] + tail;
    }
  }

  /** What is left after the white space and the sign of a string without digits has no digit either. */
  lemma UnsignedWithoutDigits(s: string)
    requires forall i :: 0 <= i < |s| ==> !IsDigit(s[i])
    ensures forall i :: 0 <= i < |DropSign(TrimStart(s))| ==> !IsDigit(DropSign(TrimStart(s))[i])
  {
    var u := DropSign(TrimStart(s));
    assert u == s[|s| - |u|..];
    assert forall i :: 0 <= i < |u| ==> u[i] == s[|s| - |u| + i];
  }

  /** A string without any digit is NaN for parseInt, so it counts as 0. */
  lemma ParseIntWithoutDigits(s: string)
    requires forall i :: 0 <= i < |s| ==> !IsDigit(s[i])
    ensures ParseInt(s) == None && ParseIntOr0(s) == 0
  {
    var u := DropSign(TrimStart(s));
    UnsignedWithoutDigits(s);
    assert u == [] || u[0] != '0';
    assert LeadingDigits(u) == 0;
  }

  /** Without any digit there is no decimal literal to scan. */
  lemma ScanWithoutDigits(u: string)
    requires forall i :: 0 <= i < |u| ==> !IsDigit(u[i])
    ensures ScanDecimal(u) == None
  {
    assert LeadingDigits(u) == 0;
    if 0 < |u| && u[0] == '.' {
      assert LeadingDigits(u[1..]) == 0 by {
        assert |u| == 1 || u[1..][0] == u[1];
      }
    }
  }

  /** The same for parseFloat. */
  lemma ParseFloatWithoutDigits(s: string)
    requires forall i :: 0 <= i < |s| ==> !IsDigit(s[i])
    ensures ParseFloat(s) == None && ParseFloatOr0(s) == 0.0
  {
    UnsignedWithoutDigits(s);
    ScanWithoutDigits(DropSign(TrimStart(s)));
  }

  /** A string that starts with a digit is read by parseFloat as the literal at its start. */
  lemma ParseFloatOfScan(s: string, l: Literal)
    requires s != [] && IsDigit(s[0])
    requires ScanDecimal(s) == Some(l)
    ensures ParseFloat(s) == Some(LiteralValue(l))
  {
    NothingToSkip(s);
    FloatOfPlainLiteral(s);
  }

  lemma NothingToSkip(s: string)
    requires s != [] && IsDigit(s[0])
    ensures TrimStart(s) == s && DropSign(s) == s
  {
    assert !IsWhiteSpace(s[0]);
  }

  lemma FloatOfPlainLiteral(s: string)
    requires TrimStart(s) == s && DropSign(s) == s
    requires ScanDecimal(s).Some? && s != [] && s[0] != '-'
    ensures ParseFloat(s) == Some(LiteralValue(ScanDecimal(s).value))
  {
  }

  lemma LiteralWithoutExponent(l: Literal)
    requires WellFormed(l) && l.exponent == 0
    ensures LiteralValue(l) == DigitsValue(l.whole) as real + FractionValue(l.fraction)
  {
  }

  /** parseFloat reads a whole number written by `String(n)` as that number. */
  lemma ParseFloatDecimal(n: nat)
    ensures ParseFloat(DecimalString(n)) == Some(n as real)
  {
    var d := DecimalString(n);
    AllDigitsRun(d);
    assert ExponentOf(d[|d|..]) == 0;
    assert ScanDecimal(d) == Some(Literal(d, "", 0));
    ParseFloatOfScan(d, Literal(d, "", 0));
    WholeLiteral(d);
  }

  lemma WholeLiteral(d: string)
    requires AllDigits(d) && d != []
    ensures LiteralValue(Literal(d, "", 0)) == DigitsValue(d) as real
  {
  }

  /** parseFloat of `d.f`, for runs of digits d (not empty) and f, is the literal with whole part d and fraction f. */
  lemma ParseFloatPointNumber(d: string, f: string)
    requires AllDigits(d) && AllDigits(f) && d != []
    ensures ParseFloat(d + "." + f) == Some(LiteralValue(Literal(d, f, 0)))
  {
    var s := d + "." + f;
    assert s[0] == d[0];
    UnsignedPointNumber(d, f);
    ParseFloatOfScan(s, Literal(d, f, 0));
  }

  lemma UnsignedPointNumber(d: string, f: string)
    requires AllDigits(d) && AllDigits(f) && d != []
    ensures ScanDecimal(d + "." + f) == Some(Literal(d, f, 0))
  {
    var u := d + "." + f;
    assert u == d + ("." + f);
    LeadingDigitsSuffix(d, "." + f);
    var i := LeadingDigits(u);
    assert i == |d|;
    assert u[..i] == d;
    assert u[i] == '.';
    var g := u[i + 1..];
    assert g == f;
    AllDigitsRun(f);
    assert LeadingDigits(g) == |f|;
    assert g[..|f|] == f;
    assert u[i + 1 + |f|..] == [];
    assert ExponentOf([]) == 0;
  }

  /** The amount typed in the sample sale, "150.50", is 150.5. */
  lemma ParseFloatExample()
    ensures ParseFloatOr0("150.50") == 150.5
  {
    assert "150.50" == "150" + "." + "50";
    assert DigitsValue("150") == 150 by { assert "150"[..2] == "15" && "15"[..1] == "1"; }
    assert FractionValue("50") == 0.5 by { assert "50"[1..] == "0"; }
    ParseFloatPointNumber("150", "50");
    LiteralWithoutExponent(Literal("150", "50", 0));
  }
}
