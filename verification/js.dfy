/**
 * The fragment of JavaScript's value semantics that the pages rely on:
 * truthiness, `||`, strict equality, `String(x)` / template-literal conversion,
 * property reads on plain objects and `parseInt`.
 * Numbers are modelled as integers; fractional numbers are outside the model.
 */
module Js {

  /** A JavaScript value as it flows through form state, payloads and server records. */
  datatype Value = Undefined | Null | Int(n: int) | NaN | Str(s: string)

  /** A slot that the source types as `number | null` (it may also read as undefined or NaN). */
  type NumOrNull = v: Value | !v.Str? witness Null

  /** A slot that holds a string or nothing (null or a missing property). */
  type StrOrNull = v: Value | v.Str? || v.Null? || v.Undefined? witness Null

  /** A plain object literal: property name to value. */
  type Object = map<string, Value>

  /** `o[key]`: a missing property reads as undefined. */
  function Get(o: Object, key: string): Value {
    if key in o then o[key] else Undefined
  }

  /** ECMAScript ToBoolean. */
  predicate Truthy(v: Value) {
    match v
    case Undefined => false
    case Null => false
    case Int(n) => n != 0
    case NaN => false
    case Str(s) => s != ""
  }

  /** `a || b` */
  function Or(a: Value, b: Value): Value {
    if Truthy(a) then a else b
  }

  /** `a === b`: NaN is the one value not strictly equal to itself. */
  predicate StrictEquals(a: Value, b: Value) {
    a == b && !a.NaN?
  }

  /** The element `arr[0]` of a selection array: undefined when the array is empty. */
  function First(arr: seq<string>): Value {
    if |arr| > 0 then Str(arr[0]) else Undefined
  }

  /** `a % b` for a positive divisor: JavaScript truncates, so the remainder takes the sign of `a`. */
  function Rem(a: int, b: int): (r: int)
    requires b > 0
    ensures -b < r < b
    ensures a >= 0 ==> r == a % b
    ensures a < 0 ==> r == -((-a) % b)
  {
    if a >= 0 then a % b else -((-a) % b)
  }

  // ---------------------------------------------------------------------
  // Number to string
  // ---------------------------------------------------------------------

  function DigitChar(d: nat): char
    requires d < 10
  {
    "0123456789"[d]
  }

  /** The decimal numeral of a non-negative integer, without leading zeros. */
  function NatToString(n: nat): string {
    if n < 10 then [DigitChar(n)] else NatToString(n / 10) + [DigitChar(n % 10)]
  }

  /** Number.prototype.toString() on an integer. */
  function IntToString(n: int): string {
    if n < 0 then "-" + NatToString(-n) else NatToString(n)
  }

  /** `String(v)`, which is also what a template literal `${v}` inserts. */
  function ToString(v: Value): string {
    match v
    case Undefined => "undefined"
    case Null => "null"
    case Int(n) => IntToString(n)
    case NaN => "NaN"
    case Str(s) => s
  }

  // ---------------------------------------------------------------------
  // parseInt (no radix argument)
  // ---------------------------------------------------------------------

  /** The white-space and line-terminator characters that parseInt skips (the ASCII and BMP ones the pages can meet). */
  predicate IsSpace(c: char) {
    c == ' ' || c == '\t' || c == '\n' || c == '\r' || c == '\U{000B}' || c == '\U{000C}'
    || c == '\U{00A0}' || c == '\U{FEFF}' || c == '\U{2028}' || c == '\U{2029}'
  }

  /** The value of `c` as a digit, or 99 when it is no digit of base 10 or 16. */
  function DigitValue(c: char): nat {
    if '0' <= c <= '9' then (c as int - '0' as int)
    else if 'a' <= c <= 'f' then (c as int - 'a' as int) + 10
    else if 'A' <= c <= 'F' then (c as int - 'A' as int) + 10
    else 99
  }

  predicate IsDigit(c: char, radix: nat) {
    DigitValue(c) < radix
  }

  /** `s` with its leading white space removed. */
  function TrimStart(s: string): (r: string)
    ensures |r| <= |s| && r == s[|s| - |r|..]
    ensures forall i :: 0 <= i < |s| - |r| ==> IsSpace(s[i])
    ensures r == [] || !IsSpace(r[0])
  {
    if s != [] && IsSpace(s[0]) then TrimStart(s[1..]) else s
  }

  /** The length of the longest prefix of `s` made of digits of `radix`. */
  function DigitRun(s: string, radix: nat): (k: nat)
    ensures k <= |s|
    ensures forall i :: 0 <= i < k ==> IsDigit(s[i], radix)
    ensures k < |s| ==> !IsDigit(s[k], radix)
  {
    if s != [] && IsDigit(s[0], radix) then 1 + DigitRun(s[1..], radix) else 0
  }

  predicate AllDigits(s: string, radix: nat) {
    forall i :: 0 <= i < |s| ==> IsDigit(s[i], radix)
  }

  /** The number a string of digits denotes in base `radix`. */
  function DigitsValue(s: string, radix: nat): nat
    requires AllDigits(s, radix)
  {
    if s == [] then 0 else DigitsValue(s[..|s| - 1], radix) * radix + DigitValue(s[|s| - 1])
  }

  /** Reads the longest run of `radix` digits at the start of `d`; NaN when there is none. */
  function ParseDigits(d: string, radix: nat): (r: Value)
    ensures r.Int? || r == NaN
  {
    var k := DigitRun(d, radix);
    if k == 0 then NaN else Int(DigitsValue(d[..k], radix))
  }

  /** After the sign: base 16 behind a `0x`/`0X` prefix, base 10 otherwise. */
  function ParseUnsigned(u: string): (r: Value)
    ensures r.Int? || r == NaN
  {
    if |u| >= 2 && u[0] == '0' && (u[1] == 'x' || u[1] == 'X') then ParseDigits(u[2..], 16)
    else ParseDigits(u, 10)
  }

  function Negate(v: Value): Value {
    if v.Int? then Int(-v.n) else v
  }

  /** After the leading white space: an optional `-` or `+`. */
  function ParseSigned(t: string): (r: Value)
    ensures r.Int? || r == NaN
  {
    if |t| > 0 && t[0] == '-' then Negate(ParseUnsigned(t[1..]))
    else if |t| > 0 && t[0] == '+' then ParseUnsigned(t[1..])
    else ParseUnsigned(t)
  }

  /**
   * `parseInt(s)`: skip leading white space, take an optional sign, read base 16
   * after a `0x`/`0X` prefix and base 10 otherwise, and stop at the first
   * non-digit; NaN when no digit was read.
   */
  function ParseInt(s: string): (r: Value)
    ensures r.Int? || r == NaN
  {
    ParseSigned(TrimStart(s))
  }

  /** `parseInt(v)` for any value: the argument is first converted with String(). */
  function ParseIntValue(v: Value): Value {
    ParseInt(ToString(v))
  }

  /** `s.split(sep)[0]` for a one-character separator: the text before the first `sep`, or all of `s`. */
  function SplitFirst(s: string, sep: char): (r: string)
    ensures r <= s
    ensures sep !in r
    ensures |r| < |s| ==> s[|r|] == sep
  {
    if s == [] || s[0] == sep then [] else [s[0]] + SplitFirst(s[1..], sep)
  }

  // ---------------------------------------------------------------------
  // Lemmas
  // ---------------------------------------------------------------------

  lemma {:induction false} NatToStringDigits(n: nat)
    ensures |NatToString(n)| >= 1
    ensures AllDigits(NatToString(n), 10)
  {
    if n >= 10 {
      NatToStringDigits(n / 10);
    }
  }

  lemma {:induction false} DigitRunAll(s: string, radix: nat)
    requires AllDigits(s, radix)
    ensures DigitRun(s, radix) == |s|
  {
    if s != [] {
      DigitRunAll(s[1..], radix);
    }
  }

  lemma {:induction false} NatToStringValue(n: nat)
    ensures AllDigits(NatToString(n), 10)
    ensures DigitsValue(NatToString(n), 10) == n
  {
    NatToStringDigits(n);
    if n >= 10 {
      NatToStringValue(n / 10);
      var s := NatToString(n);
      assert s[..|s| - 1] == NatToString(n / 10);
    } else {
      var s := NatToString(n);
      assert s[..|s| - 1] == [];
    }
  }

  /** A non-empty string of decimal digits is read in full, in base 10. */
  lemma DecimalDigitsParse(s: string)
    requires |s| >= 1 && AllDigits(s, 10)
    ensures ParseUnsigned(s) == Int(DigitsValue(s, 10))
  {
    DigitRunAll(s, 10);
    assert |s| >= 2 ==> s[1] != 'x' && s[1] != 'X' by {
      if |s| >= 2 { assert IsDigit(s[1], 10); }
    }
    assert ParseUnsigned(s) == ParseDigits(s, 10);
    assert s[..|s|] == s;
  }

  /** Every decimal numeral is read back in full. */
  lemma NumeralParses(m: nat)
    ensures ParseUnsigned(NatToString(m)) == Int(m)
  {
    NatToStringDigits(m);
    NatToStringValue(m);
    DecimalDigitsParse(NatToString(m));
  }

  /** `parseInt` reads back every integer's decimal numeral exactly: parseInt(String(n)) === n. */
  lemma ParseIntOfIntToString(n: int)
    ensures ParseInt(IntToString(n)) == Int(n)
  {
    var m: nat := if n < 0 then -n else n;
    var s := NatToString(m);
    NatToStringDigits(m);
    assert IsDigit(s[0], 10);
    NumeralParses(m);
    if n < 0 {
      var t := IntToString(n);
      assert t == "-" + s;
      assert t[0] == '-' && !IsSpace(t[0]);
      assert TrimStart(t) == t;
      assert t[1..] == s;
    } else {
      assert !IsSpace(s[0]) && s[0] != '-' && s[0] != '+';
      assert TrimStart(s) == s;
    }
  }

  /** parseInt leaves every integer unchanged. */
  lemma ParseIntValueOfInt(n: int)
    ensures ParseIntValue(Int(n)) == Int(n)
  {
    ParseIntOfIntToString(n);
  }

  /** parseInt of null, undefined or NaN is NaN (it parses the words "null", "undefined", "NaN"). */
  lemma ParseIntValueOfNonNumber(v: Value)
    requires v.Null? || v.Undefined? || v.NaN?
    ensures ParseIntValue(v) == NaN
  {
    var w := ToString(v);
    assert w[0] == 'n' || w[0] == 'u' || w[0] == 'N';
    assert !IsSpace(w[0]) && DigitValue(w[0]) == 99 && w[0] != '0';
    assert TrimStart(w) == w;
    assert DigitRun(w, 10) == 0;
  }

  /** parseInt always yields an integer or NaN, and applying it twice changes nothing. */
  lemma ParseIntValueIdempotent(v: Value)
    ensures ParseIntValue(v).Int? || ParseIntValue(v) == NaN
    ensures ParseIntValue(ParseIntValue(v)) == ParseIntValue(v)
  {
    var p := ParseIntValue(v);
    if p.Int? {
      ParseIntValueOfInt(p.n);
    } else {
      ParseIntValueOfNonNumber(p);
    }
  }

  /** `parseInt(x) || d` is the parsed integer when it is neither NaN nor 0, and `d` otherwise. */
  lemma ParseIntOrDefault(v: Value, d: int)
    ensures var r := Or(ParseIntValue(v), Int(d));
      (ParseIntValue(v).Int? && ParseIntValue(v).n != 0 ==> r == ParseIntValue(v))
      && (ParseIntValue(v) == NaN || ParseIntValue(v) == Int(0) ==> r == Int(d))
      && r.Int?
  {
  }
}
