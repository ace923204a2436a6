/** The JavaScript values and built-ins that the SMTP adapter relies on:
    `undefined`, truthiness, `typeof`, conversion to string, `parseInt(_, 10)`
    and `Array.prototype.join`. */
module Js {

  /** A value, or JavaScript's `undefined` (None). */
  datatype Option<+T> = None | Some(value: T)

  /** A thrown JavaScript `Error`; only its message is observable. */
  datatype Error = Error(message: string)

  /** The outcome of a call (or of an awaited promise): a value, or a thrown error. */
  datatype Result<+T> = Ok(value: T) | Err(error: Error)

  /** `Number.MAX_SAFE_INTEGER`, 2^53 - 1. */
  const MaxSafeInteger: nat := 0x1F_FFFF_FFFF_FFFF

  /** The non-negative integers a JavaScript number holds exactly. */
  type SafeNat = n: nat | n <= MaxSafeInteger

  /** The JavaScript values a configuration object can hold.
      Numbers are restricted to the non-negative safe integers. */
  datatype JsValue =
    | Undefined
    | Null
    | Bool(b: bool)
    | Number(n: SafeNat)
    | Str(s: string)
    | Object(props: map<string, JsValue>)

  /** Property access `obj[key]` on an object: `undefined` when the key is absent. */
  function Get(props: map<string, JsValue>, key: string): JsValue
  {
    if key in props then props[key] else Undefined
  }

  /** JavaScript truthiness (`!!v`). */
  predicate Truthy(v: JsValue)
  {
    match v
    case Undefined => false
    case Null => false
    case Bool(b) => b
    case Number(n) => n != 0
    case Str(s) => s != ""
    case Object(_) => true
  }

  /** Truthiness of a property that holds a string or is `undefined`. */
  predicate TruthyString(o: Option<string>)
  {
    o.Some? && o.value != ""
  }

  /** The `typeof` operator (`typeof null` is "object"). */
  function TypeOf(v: JsValue): string
  {
    match v
    case Undefined => "undefined"
    case Null => "object"
    case Bool(_) => "boolean"
    case Number(_) => "number"
    case Str(_) => "string"
    case Object(_) => "object"
  }

  predicate IsDigit(c: char)
  {
    '0' <= c <= '9'
  }

  predicate AllDigits(s: string)
  {
    forall i :: 0 <= i < |s| ==> IsDigit(s[i])
  }

  function DigitChar(d: nat): (c: char)
    requires d < 10
    ensures IsDigit(c)
  {
    ('0' as int + d) as char
  }

  function DigitValue(c: char): (d: nat)
    requires IsDigit(c)
    ensures d < 10
  {
    c as int - '0' as int
  }

  /** `String(n)` for a non-negative integer: its decimal digits, most significant first. */
  function DecimalString(n: nat): (s: string)
    ensures |s| > 0 && AllDigits(s)
    decreases n
  {
    (if n < 10 then "" else DecimalString(n / 10)) + [DigitChar(n % 10)]
  }

  /** The number a string of decimal digits denotes. */
  function DigitsValue(s: string): nat
    requires AllDigits(s)
  {
    if s == [] then 0 else DigitsValue(s[..|s| - 1]) * 10 + DigitValue(s[|s| - 1])
  }

  /** The longest prefix of `s` made of decimal digits. */
  function DigitPrefix(s: string): (p: string)
    ensures p <= s && AllDigits(p)
    ensures |p| < |s| ==> !IsDigit(s[|p|])
  {
    if s == [] || !IsDigit(s[0]) then "" else [s[0]] + DigitPrefix(s[1..])
  }

  /** `parseInt(s, 10)` on a string without leading blanks or sign: the value of the
      leading run of digits, or NaN (None) when the string does not start with a digit. */
  function ParseInt(s: string): (r: Option<nat>)
    ensures r.None? <==> (s == [] || !IsDigit(s[0]))
  {
    var p := DigitPrefix(s);
    if p == [] then None else Some(DigitsValue(p))
  }

  /** `String(v)`, the conversion that `parseInt` and template strings apply first. */
  function ToJsString(v: JsValue): string
  {
    match v
    case Undefined => "undefined"
    case Null => "null"
    case Bool(b) => if b then "true" else "false"
    case Number(n) => DecimalString(n)
    case Str(s) => s
    case Object(_) => "[object Object]"
  }

  lemma {:induction false} DigitsValueOfDecimal(n: nat)
    ensures DigitsValue(DecimalString(n)) == n
    decreases n
  {
    var s := DecimalString(n);
    var front := if n < 10 then "" else DecimalString(n / 10);
    var last := DigitChar(n % 10);
    assert s == front + [last];
    assert s[..|s| - 1] == front;
    assert DigitValue(last) == n % 10;
    if n >= 10 {
      DigitsValueOfDecimal(n / 10);
      assert DigitsValue(front) == n / 10;
    }
    assert DigitsValue(s) == DigitsValue(front) * 10 + n % 10;
  }

  /** Every digit of a leading run of digits is taken by `parseInt`: the digits and
      whatever non-digit text follows them give the value of the digits. */
  lemma {:induction false} ParseIntOfDigits(digits: string, rest: string)
    requires digits != [] && AllDigits(digits)
    requires rest == [] || !IsDigit(rest[0])
    ensures ParseInt(digits + rest) == Some(DigitsValue(digits))
  {
    DigitPrefixStopsAtRest(digits, rest);
  }

  lemma {:induction false} DigitPrefixStopsAtRest(digits: string, rest: string)
    requires AllDigits(digits)
    requires rest == [] || !IsDigit(rest[0])
    ensures DigitPrefix(digits + rest) == digits
  {
    if digits == [] {
      assert digits + rest == rest;
    } else {
      var s := digits + rest;
      assert s[0] == digits[0];
      assert s[1..] == digits[1..] + rest;
      DigitPrefixStopsAtRest(digits[1..], rest);
      assert [digits[0]] + digits[1..] == digits;
    }
  }

  /** `parseInt(String(n), 10) == n`: the decimal rendering of a number parses back
      to that number. */
  lemma DecimalRoundTrip(n: nat)
    ensures ParseInt(DecimalString(n)) == Some(n)
  {
    var s := DecimalString(n);
    ParseIntOfDigits(s, "");
    assert s + "" == s;
    DigitsValueOfDecimal(n);
  }

  /** `String(v) === "true"` holds of exactly two values: the string "true" and the
      boolean `true`. */
  lemma StringTrueValues(v: JsValue)
    ensures ToJsString(v) == "true" <==> (v == Str("true") || v == Bool(true))
  {
    match v
    case Number(n) =>
      assert IsDigit(ToJsString(v)[0]);
    case _ =>
  }

  /** `parts.join(sep)`: the parts with `sep` between neighbours, "" for no parts. */
  function Join(parts: seq<string>, sep: string): string
  {
    if |parts| == 0 then ""
    else if |parts| == 1 then parts[0]
    else Join(parts[..|parts| - 1], sep) + sep + parts[|parts| - 1]
  }

  /** `needle` occurs in `hay` starting at index k. */
  predicate OccursAt(needle: string, hay: string, k: int)
  {
    0 <= k && k + |needle| <= |hay| && hay[k..k + |needle|] == needle
  }

  function TotalLength(parts: seq<string>): nat
  {
    if parts == [] then 0 else TotalLength(parts[..|parts| - 1]) + |parts[|parts| - 1]|
  }

  /** The joined length is the parts' total plus one separator per gap. */
  lemma {:induction false} JoinLength(parts: seq<string>, sep: string)
    requires parts != []
    ensures |Join(parts, sep)| == TotalLength(parts) + (|parts| - 1) * |sep|
  {
    if |parts| > 1 {
      var init := parts[..|parts| - 1];
      JoinLength(init, sep);
    } else {
      assert parts[..0] == [];
    }
  }

  /** Every part appears in the joined string. */
  lemma {:induction false} JoinContainsEach(parts: seq<string>, sep: string, i: nat)
    requires i < |parts|
    ensures exists k :: OccursAt(parts[i], Join(parts, sep), k)
  {
    var r := Join(parts, sep);
    if |parts| == 1 {
      assert OccursAt(parts[i], r, 0);
    } else {
      var init := parts[..|parts| - 1];
      var front := Join(init, sep);
      assert r == front + sep + parts[|parts| - 1];
      if i == |parts| - 1 {
        var k := |front| + |sep|;
        assert r[k..k + |parts[i]|] == parts[i];
        assert OccursAt(parts[i], r, k);
      } else {
        JoinContainsEach(init, sep, i);
        var k :| OccursAt(init[i], front, k);
        assert r[k..k + |parts[i]|] == front[k..k + |parts[i]|];
        assert OccursAt(parts[i], r, k);
      }
    }
  }

  /** Joining a concatenation joins the halves with one separator between them. */
  lemma {:induction false} JoinAppend(left: seq<string>, right: seq<string>, sep: string)
    requires left != [] && right != []
    ensures Join(left + right, sep) == Join(left, sep) + sep + Join(right, sep)
    decreases |right|
  {
    var all := left + right;
    if |right| == 1 {
      assert all[..|all| - 1] == left;
    } else {
      var rinit := right[..|right| - 1];
      assert all[..|all| - 1] == left + rinit;
      JoinAppend(left, rinit, sep);
      assert right[..|right| - 1] == rinit;
    }
  }
}
