/**
 * The slice of JavaScript value semantics the webhook server leans on:
 * payload values, truthiness (what `||` tests), `String(v)` and the
 * global `parseInt` with no radix argument.
 */
module Js {

  /** A scalar JSON payload value: arrays and objects are not modelled. Numbers are modelled as integers. */
  datatype Value = Undefined | Null | Bool(b: bool) | Num(n: int) | Str(s: string)

  /** A request body: property name to value. A missing property reads as `undefined`. */
  type Payload = map<string, Value>

  datatype Option<T> = None | Some(value: T)

  /** `p.key` */
  function Get(p: Payload, key: string): Value {
    if key in p then p[key] else Undefined
  }

  /** JavaScript truthiness: false, 0, "", null and undefined are falsy. */
  predicate Truthy(v: Value) {
    match v
    case Undefined => false
    case Null => false
    case Bool(b) => b
    case Num(n) => n != 0
    case Str(s) => s != ""
  }

  /** `a || b`: the left operand when it is truthy, else the right one. */
  function Or(a: Value, b: Value): Value {
    if Truthy(a) then a else b
  }

  function DigitChar(d: nat): char
    requires d < 10
  {
    "0123456789"[d]
  }

  /** Decimal notation of a non-negative integer, most significant digit first. */
  function NatToString(n: nat): (s: string)
    ensures |s| > 0
    ensures forall i :: 0 <= i < |s| ==> IsDigitOf(s[i], 10)
  {
    if n < 10 then [DigitChar(n)] else NatToString(n / 10) + [DigitChar(n % 10)]
  }

  function IntToString(n: int): string {
    if n < 0 then "-" + NatToString(-n) else NatToString(n)
  }

  /** `String(v)`, which is also how a value becomes an object property key. */
  function ToStr(v: Value): string {
    match v
    case Undefined => "undefined"
    case Null => "null"
    case Bool(b) => if b then "true" else "false"
    case Num(n) => IntToString(n)
    case Str(s) => s
  }

  /** The white space and line terminators that `parseInt` skips before the number. */
  predicate IsWhitespace(c: char) {
    || '\t' <= c <= '\r'                 // tab, line feed, vertical tab, form feed, carriage return
    || c == ' ' || c == '\U{00A0}' || c == '\U{1680}'
    || '\U{2000}' <= c <= '\U{200A}'     // the typographic spaces
    || c == '\U{2028}' || c == '\U{2029}' // line and paragraph separators
    || c == '\U{202F}' || c == '\U{205F}' || c == '\U{3000}' || c == '\U{FEFF}'
  }

  /** The string without its leading white space. */
  function TrimStart(s: string): (t: string)
    ensures |t| <= |s| && t == s[|s| - |t|..]
    ensures forall i :: 0 <= i < |s| - |t| ==> IsWhitespace(s[i])
    ensures t != [] ==> !IsWhitespace(t[0])
  {
    if s != [] && IsWhitespace(s[0]) then TrimStart(s[1..]) else s
  }

  /** The value of `c` as a digit in `radix` (10 or 16), or -1 when it is not one. */
  function DigitValue(c: char, radix: nat): int {
    if '0' <= c <= '9' then c as int - '0' as int
    else if radix == 16 && 'a' <= c <= 'f' then c as int - 'a' as int + 10
    else if radix == 16 && 'A' <= c <= 'F' then c as int - 'A' as int + 10
    else -1
  }

  predicate IsDigitOf(c: char, radix: nat) {
    0 <= DigitValue(c, radix)
  }

  /** The longest prefix of `s` made of digits of `radix`. */
  function DigitPrefix(s: string, radix: nat): (z: string)
    ensures z <= s
    ensures forall i :: 0 <= i < |z| ==> IsDigitOf(z[i], radix)
    ensures |z| < |s| ==> !IsDigitOf(s[|z|], radix)
  {
    if s != [] && IsDigitOf(s[0], radix) then [s[0]] + DigitPrefix(s[1..], radix) else []
  }

  /** The number a string of digits denotes in `radix`. */
  function DigitsValue(z: string, radix: nat): nat
    requires forall i :: 0 <= i < |z| ==> IsDigitOf(z[i], radix)
  {
    if z == [] then 0
    else
      assert IsDigitOf(z[|z| - 1], radix);
      DigitsValue(z[..|z| - 1], radix) * radix + DigitValue(z[|z| - 1], radix)
  }

  /** What `parseInt` returns: NaN, or an integer (a negative zero is folded into 0). */
  datatype ParsedInt = NaN | Int(value: int)

  /**
   * `parseInt(s)`: skip leading white space, take an optional sign, read a
   * hexadecimal number after "0x"/"0X" or else a decimal one, and stop at the
   * first character that is not a digit; NaN when no digit was read.
   */
  function ParseInt(s: string): (r: ParsedInt)
  {
    ParseSigned(TrimStart(s))
  }

  function ParseSigned(t: string): ParsedInt {
    if t != [] && t[0] == '-' then Negate(ParseUnsigned(t[1..]))
    else if t != [] && t[0] == '+' then ParseUnsigned(t[1..])
    else ParseUnsigned(t)
  }

  function Negate(p: ParsedInt): ParsedInt {
    match p
    case NaN => NaN
    case Int(n) => Int(-n)
  }

  function ParseUnsigned(u: string): ParsedInt {
    if |u| >= 2 && u[0] == '0' && (u[1] == 'x' || u[1] == 'X') then ParseDigits(u[2..], 16)
    else ParseDigits(u, 10)
  }

  function ParseDigits(u: string, radix: nat): ParsedInt {
    var z := DigitPrefix(u, radix);
    if z == [] then NaN else Int(DigitsValue(z, radix))
  }

  /** `parseInt(v)`, which first converts `v` with `String(v)`. */
  function ParseIntValue(v: Value): ParsedInt {
    ParseInt(ToStr(v))
  }

  /** `parseInt(v) || d`: NaN and 0 are falsy and give way to the default. */
  function IntOr(p: ParsedInt, d: int): int {
    match p
    case NaN => d
    case Int(n) => if n != 0 then n else d
  }

  lemma {:induction false} DecimalDigitsValue(n: nat)
    ensures DigitsValue(NatToString(n), 10) == n
  {
    if n >= 10 {
      var s := NatToString(n);
      assert s[..|s| - 1] == NatToString(n / 10);
      DecimalDigitsValue(n / 10);
    }
  }

  lemma AllDigitsArePrefix(s: string)
    requires forall i :: 0 <= i < |s| ==> IsDigitOf(s[i], 10)
    ensures DigitPrefix(s, 10) == s
  {
    if s != [] {
      AllDigitsArePrefix(s[1..]);
    }
  }

  /** A run of decimal digits is read whole, as a decimal number. */
  lemma DecimalDigitsParse(d: string)
    requires d != [] && forall i :: 0 <= i < |d| ==> IsDigitOf(d[i], 10)
    ensures ParseUnsigned(d) == Int(DigitsValue(d, 10))
  {
    AllDigitsArePrefix(d);
    assert !(|d| >= 2 && d[1] == 'x') && !(|d| >= 2 && d[1] == 'X');
  }

  /** A number that starts with a digit parses the same with nothing before it. */
  lemma UnsignedDecimalParses(d: string, n: int)
    requires d != [] && IsDigitOf(d[0], 10) && ParseUnsigned(d) == Int(n)
    ensures ParseInt(d) == Int(n)
  {
    DigitIsNotWhitespace(d[0]);
    assert TrimStart(d) == d;
    assert d[0] != '-' && d[0] != '+';
    assert ParseInt(d) == ParseSigned(d) == ParseUnsigned(d);
  }

  /** A minus sign in front of a number that parses negates it. */
  lemma NegativeDecimalParses(d: string, n: int)
    requires ParseUnsigned(d) == Int(n)
    ensures ParseInt("-" + d) == Int(-n)
  {
    MinusIsKept(d);
  }

  lemma MinusIsKept(d: string)
    ensures ParseInt("-" + d) == Negate(ParseUnsigned(d))
  {
    var s := "-" + d;
    assert s[0] == '-' && s[1..] == d;
    assert TrimStart(s) == s;
  }

  lemma DigitIsNotWhitespace(c: char)
    requires IsDigitOf(c, 10)
    ensures !IsWhitespace(c)
  {
  }

  /** `parseInt(String(n)) === n` for every integer `n`: a number survives the round trip. */
  lemma {:induction false} ParseIntOfNumber(n: int)
    ensures ParseIntValue(Num(n)) == Int(n)
  {
    var m: nat := if n < 0 then -n else n;
    DecimalDigitsValue(m);
    DecimalDigitsParse(NatToString(m));
    if n < 0 {
      NegativeDecimalParses(NatToString(m), m);
    } else {
      UnsignedDecimalParses(NatToString(m), m);
    }
  }

  /** A string whose first non-blank character is not a sign or a digit parses to NaN. */
  lemma ParseIntNoDigits(s: string)
    requires var t := TrimStart(s); t == [] || (t[0] != '-' && t[0] != '+' && !IsDigitOf(t[0], 10))
    ensures ParseInt(s) == NaN
  {
  }

  /** `parseInt` never gives a negative number unless a minus sign follows the leading white space. */
  lemma ParseIntSign(s: string)
    ensures ParseInt(s).Int? && ParseInt(s).value < 0 ==> TrimStart(s) != [] && TrimStart(s)[0] == '-'
  {
    var t := TrimStart(s);
    assert ParseInt(s) == ParseSigned(t);
    if t != [] && t[0] == '+' {
      UnsignedIsNonNegative(t[1..]);
    } else if t == [] || t[0] != '-' {
      UnsignedIsNonNegative(t);
    }
  }

  lemma UnsignedIsNonNegative(u: string)
    ensures ParseUnsigned(u).Int? ==> ParseUnsigned(u).value >= 0
  {
  }

  /**
   * No falsy value carries a number for `parseInt || d`: `undefined`, `null`,
   * `false` and `""` parse to NaN, and `0` to 0.
   */
  lemma FalsyParsesToNothing(v: Value)
    requires !Truthy(v)
    ensures ParseIntValue(v) == NaN || ParseIntValue(v) == Int(0)
  {
    if v.Num? {
      assert v == Num(0);
      ParseIntOfNumber(0);
    } else {
      var s := ToStr(v);
      assert s == "undefined" || s == "null" || s == "false" || s == "";
      assert s != [] ==> !IsWhitespace(s[0]) && s[0] != '-' && s[0] != '+' && !IsDigitOf(s[0], 10);
      assert TrimStart(s) == s;
      ParseIntNoDigits(s);
    }
  }

}
