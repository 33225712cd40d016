/**
 * JavaScript values as the risk-assessment form handles them, and the
 * string-to-number conversion `Number(value)` (ECMAScript StringToNumber).
 *
 * A JavaScript number is an IEEE double; here a finite number is an exact
 * `real`, so rounding to the nearest double (and overflow of a huge literal to
 * Infinity) is not modelled. The infinities and NaN are kept as values of their
 * own because the form's sanitation pass tests only `isNaN`.
 */
module JsNumbers {
  import opened Options

  datatype JsNumber = Finite(r: real) | PosInf | NegInf | NaN

  /** A value of the form records: a string the user typed or a number. */
  datatype JsValue = Str(s: string) | Num(n: JsNumber)

  const Zero: JsValue := Num(Finite(0.0))
  const One: JsValue := Num(Finite(1.0))

  /** ToBoolean: `""`, `0` and `NaN` are falsy. */
  predicate Truthy(v: JsValue)
  {
    match v
    case Str(s) => s != ""
    case Num(n) => !(n.NaN? || n == Finite(0.0))
  }

  /** `x || 0` on a number: NaN and 0 become 0, everything else stays. */
  function NaNToZero(n: JsNumber): (m: JsNumber)
    ensures !m.NaN?
    ensures n.NaN? ==> m == Finite(0.0)
    ensures !n.NaN? ==> m == n
  {
    if n.NaN? then Finite(0.0) else n
  }

  // ---------------------------------------------------------------------
  // Characters

  /** WhiteSpace and LineTerminator code points, which StringToNumber trims. */
  predicate IsSpace(c: char)
  {
    || c == ' ' || c == '\t' || c == '\n' || c == '\r'
    || c == '\U{000B}' || c == '\U{000C}' || c == '\U{00A0}' || c == '\U{FEFF}'
    || c == '\U{1680}' || ('\U{2000}' <= c <= '\U{200A}')
    || c == '\U{2028}' || c == '\U{2029}' || c == '\U{202F}' || c == '\U{205F}' || c == '\U{3000}'
  }

  /** The value of a digit in radix 16 or below, if `c` is one. */
  function DigitOf(c: char): (d: Option<nat>)
    ensures d.Some? ==> d.value < 16
  {
    if '0' <= c <= '9' then Some(c as int - '0' as int)
    else if 'a' <= c <= 'f' then Some(c as int - 'a' as int + 10)
    else if 'A' <= c <= 'F' then Some(c as int - 'A' as int + 10)
    else None
  }

  predicate IsDigitIn(c: char, radix: nat)
  {
    DigitOf(c).Some? && DigitOf(c).value < radix
  }

  predicate AllDigitsIn(s: string, radix: nat)
  {
    forall i :: 0 <= i < |s| ==> IsDigitIn(s[i], radix)
  }

  /** The number written by the digit string `s` in the given radix. */
  function DigitsValue(s: string, radix: nat): nat
    requires AllDigitsIn(s, radix)
  {
    if s == [] then 0
    else DigitsValue(s[..|s| - 1], radix) * radix + DigitOf(s[|s| - 1]).value
  }

  // ---------------------------------------------------------------------
  // Trimming

  function TrimStart(s: string): (t: string)
    ensures |t| <= |s|
    ensures t == s[|s| - |t|..]
    ensures t != [] ==> !IsSpace(t[0])
  {
    if s != [] && IsSpace(s[0]) then TrimStart(s[1..]) else s
  }

  function TrimEnd(s: string): (t: string)
    ensures |t| <= |s|
    ensures t == s[..|t|]
    ensures t != [] ==> !IsSpace(t[|t| - 1])
  {
    if s != [] && IsSpace(s[|s| - 1]) then TrimEnd(s[..|s| - 1]) else s
  }

  function Trim(s: string): string
  {
    TrimEnd(TrimStart(s))
  }

  // ---------------------------------------------------------------------
  // Decimal literals: digits [. digits] [(e|E) [+|-] digits], or . digits ...

  /** The first index of a character of `cs` in `s`, or `|s|`. */
  function IndexOfAny(s: string, cs: set<char>): (i: nat)
    ensures i <= |s|
    ensures forall j :: 0 <= j < i ==> s[j] !in cs
    ensures i < |s| ==> s[i] in cs
  {
    if s == [] then 0
    else if s[0] in cs then 0
    else 1 + IndexOfAny(s[1..], cs)
  }

  function Pow10(e: int): (p: real)
    ensures p > 0.0
    decreases if e < 0 then -e else e
  {
    if e == 0 then 1.0
    else if e > 0 then 10.0 * Pow10(e - 1)
    else Pow10(e + 1) / 10.0
  }

  /** The value of `digits [. digits]` with at least one digit in all. */
  function ParseMantissa(s: string): Option<real>
  {
    var p := IndexOfAny(s, {'.'});
    var whole := s[..p];
    var fraction := if p < |s| then s[p + 1..] else "";
    if AllDigitsIn(whole, 10) && AllDigitsIn(fraction, 10) && |whole| + |fraction| > 0 then
      Some(DigitsValue(whole, 10) as real + DigitsValue(fraction, 10) as real / Pow10(|fraction|))
    else None
  }

  /** The value of an exponent `[+|-] digits`. */
  function ParseExponent(s: string): Option<int>
  {
    var negative := s != [] && s[0] == '-';
    var digits := if s != [] && (s[0] == '-' || s[0] == '+') then s[1..] else s;
    if digits != [] && AllDigitsIn(digits, 10) then
      var magnitude: int := DigitsValue(digits, 10);
      Some(if negative then -magnitude else magnitude)
    else None
  }

  /** An unsigned decimal literal without the Infinity form. */
  function ParseUnsignedDecimal(s: string): Option<real>
  {
    var e := IndexOfAny(s, {'e', 'E'});
    match ParseMantissa(s[..e])
    case None => None
    case Some(m) =>
      if e == |s| then Some(m)
      else match ParseExponent(s[e + 1..])
        case None => None
        case Some(x) => Some(m * Pow10(x))
  }

  /** An optionally signed finite decimal literal. */
  function ParseSignedDecimal(s: string): Option<real>
  {
    if s != [] && s[0] == '-' then
      match ParseUnsignedDecimal(s[1..])
      case None => None
      case Some(m) => Some(-m)
    else if s != [] && s[0] == '+' then ParseUnsignedDecimal(s[1..])
    else ParseUnsignedDecimal(s)
  }

  /** The radix of a `0x` / `0o` / `0b` prefix, or 0 when there is none. */
  function RadixPrefix(s: string): (radix: nat)
    ensures radix in {0, 2, 8, 16}
  {
    if |s| >= 2 && s[0] == '0' then
      (if s[1] in {'x', 'X'} then 16
       else if s[1] in {'o', 'O'} then 8
       else if s[1] in {'b', 'B'} then 2
       else 0)
    else 0
  }

  /** `Number(s)` for a string `s`. */
  function ToNumber(s: string): (n: JsNumber)
    ensures Trim(s) == "" ==> n == Finite(0.0)
    ensures n.Finite? && Trim(s) != "" && RadixPrefix(Trim(s)) == 0 ==> ParseSignedDecimal(Trim(s)) == Some(n.r)
  {
    var t := Trim(s);
    if t == "" then Finite(0.0)
    else if RadixPrefix(t) != 0 then
      var digits := t[2..];
      if digits != [] && AllDigitsIn(digits, RadixPrefix(t)) then Finite(DigitsValue(digits, RadixPrefix(t)) as real)
      else NaN
    else if t == "Infinity" || t == "+Infinity" then PosInf
    else if t == "-Infinity" then NegInf
    else match ParseSignedDecimal(t)
      case Some(r) => Finite(r)
      case None => NaN
  }

  /** `Number(v)` for a value of the form record. */
  function ToNumberOf(v: JsValue): JsNumber
  {
    match v
    case Str(s) => ToNumber(s)
    case Num(n) => n
  }

  // ---------------------------------------------------------------------
  // Decimal text of a natural number, the partner of the parser

  function DigitChar(d: nat): (c: char)
    requires d < 10
    ensures IsDigitIn(c, 10) && DigitOf(c) == Some(d)
  {
    ('0' as int + d) as char
  }

  /** The shortest decimal text of `n`, as `String(n)` writes it. */
  function NatText(n: nat): (s: string)
    ensures s != [] && AllDigitsIn(s, 10)
    ensures |s| >= 2 ==> s[0] != '0'
    decreases n
  {
    if n < 10 then [DigitChar(n)] else NatText(n / 10) + [DigitChar(n % 10)]
  }

  /** The decimal text of an integer, with a minus sign when it is negative (`str(p)`, `String(p)`). */
  function IntText(p: int): (s: string)
    ensures s != []
  {
    if p < 0 then "-" + NatText(-p) else NatText(p)
  }

  lemma {:induction false} NatTextValue(n: nat)
    ensures DigitsValue(NatText(n), 10) == n
    decreases n
  {
    var s := NatText(n);
    if n < 10 {
      assert s[..|s| - 1] == [];
    } else {
      NatTextValue(n / 10);
      assert s[..|s| - 1] == NatText(n / 10);
    }
  }

  lemma NoSpaceInDigits(s: string)
    requires s != [] && AllDigitsIn(s, 10)
    ensures Trim(s) == s
  {
    assert !IsSpace(s[0]);
    assert TrimStart(s) == s;
    assert !IsSpace(s[|s| - 1]);
  }

  /** `Number(String(n)) == n` for every natural number `n`. */
  lemma {:induction false} ToNumberOfNatText(n: nat)
    ensures ToNumber(NatText(n)) == Finite(n as real)
  {
    var s := NatText(n);
    NoSpaceInDigits(s);
    NatTextValue(n);
    assert RadixPrefix(s) == 0 by {
      if |s| >= 2 { assert s[0] != '0'; }
    }
    assert s != "Infinity" && s != "+Infinity" && s != "-Infinity" by {
      assert IsDigitIn(s[0], 10);
    }
    assert s[0] != '-' && s[0] != '+' by { assert IsDigitIn(s[0], 10); }
    var e := IndexOfAny(s, {'e', 'E'});
    assert e == |s| by {
      assert forall j :: 0 <= j < |s| ==> s[j] !in {'e', 'E'};
    }
    assert s[..e] == s;
    var p := IndexOfAny(s, {'.'});
    assert p == |s| by {
      assert forall j :: 0 <= j < |s| ==> s[j] !in {'.'};
    }
    assert s[..p] == s;
    assert ParseMantissa(s) == Some(n as real);
  }
}
