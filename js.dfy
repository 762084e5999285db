/**
 * The JavaScript values the library handles, as produced by the XML-to-JSON
 * bridge, plus the pieces of the JavaScript number and string semantics that
 * the code relies on: truthiness, the `in` operator, `String(n)` and
 * `parseInt(s, 10)`.
 */
module Js {
  import opened Wrappers

  /**
   * A JavaScript value. `Undefined` is a value of its own because `Array.map`
   * can leave it inside arrays; `NaN` is the one non-integer number the code
   * can produce (`parseInt` of a non-numeric string). Numbers are integers.
   */
  datatype Json =
    | Undefined
    | Null
    | Bool(b: bool)
    | Num(n: int)
    | NaN
    | Str(s: string)
    | Arr(items: seq<Json>)
    | Obj(fields: map<string, Json>)

  /** What a `throw` hands to the caller. */
  datatype Exception =
    | TypeError(message: string)
    | Error(message: string)
    | Thrown(value: Json)   // an arbitrary thrown value, rethrown unchanged

  /** `Boolean(v)`: every value except these six is truthy (objects and arrays always are). */
  predicate Truthy(v: Json)
  {
    match v
    case Undefined => false
    case Null => false
    case Bool(b) => b
    case Num(n) => n != 0
    case NaN => false
    case Str(s) => s != ""
    case _ => true
  }

  /** `typeof v === 'object' && v !== null`: a keyed container. */
  predicate IsObject(v: Json)
  {
    v.Obj? || v.Arr?
  }

  // ---- decimal digits ------------------------------------------------------

  predicate IsDigit(c: char)
  {
    '0' <= c <= '9'
  }

  function DigitChar(d: nat): (c: char)
    requires d < 10
    ensures IsDigit(c) && c as int - '0' as int == d
  {
    ('0' as int + d) as char
  }

  predicate AllDigits(s: string)
  {
    forall i :: 0 <= i < |s| ==> IsDigit(s[i])
  }

  /** The value of a string of decimal digits, most significant first. */
  function DigitsValue(s: string): (r: nat)
    requires AllDigits(s)
  {
    if s == [] then 0
    else DigitsValue(s[..|s| - 1]) * 10 + (s[|s| - 1] as int - '0' as int)
  }

  /** `String(n)` for a non-negative integer: shortest decimal, no leading zero. */
  function NatToString(n: nat): (r: string)
  {
    if n < 10 then [DigitChar(n)]
    else NatToString(n / 10) + [DigitChar(n % 10)]
  }

  /** `String(n)` for an integer: a minus sign in front of negative numbers. */
  function IntToString(n: int): (r: string)
  {
    if n < 0 then "-" + NatToString(-n) else NatToString(n)
  }

  /** A canonical digit string: at least one digit, and no leading zero unless it is "0". */
  predicate CanonicalDigits(s: string)
  {
    |s| > 0 && AllDigits(s) && (|s| == 1 || s[0] != '0')
  }

  lemma {:induction false} NatToStringCanonical(n: nat)
    ensures CanonicalDigits(NatToString(n))
    ensures DigitsValue(NatToString(n)) == n
  {
    if n >= 10 {
      NatToStringCanonical(n / 10);
      var s := NatToString(n);
      assert s[..|s| - 1] == NatToString(n / 10);
      assert s[0] == NatToString(n / 10)[0];
    }
  }

  lemma {:induction false} CanonicalPositive(s: string)
    requires CanonicalDigits(s) && s[0] != '0'
    ensures DigitsValue(s) >= 1
  {
    if |s| > 1 {
      var p := s[..|s| - 1];
      assert p[0] == s[0];
      CanonicalPositive(p);
    }
  }

  /** A canonical digit string is the rendering of its own value. */
  lemma {:induction false} CanonicalIsNatToString(s: string)
    requires CanonicalDigits(s)
    ensures NatToString(DigitsValue(s)) == s
  {
    if |s| > 1 {
      var p := s[..|s| - 1];
      assert p[0] == s[0];
      CanonicalPositive(p);
      CanonicalIsNatToString(p);
      var v := DigitsValue(s);
      var d := s[|s| - 1] as int - '0' as int;
      assert v == DigitsValue(p) * 10 + d;
      assert v / 10 == DigitsValue(p) && v % 10 == d;
      assert p + [s[|s| - 1]] == s;
    }
  }

  // ---- array keys ------------------------------------------------------------

  /** The element index a property key denotes on an array, if it denotes one. */
  function ArrayIndex(k: string): (r: Option<nat>)
  {
    if CanonicalDigits(k) then Some(DigitsValue(k)) else None
  }

  /** The keys that denote array indices are exactly the renderings of naturals. */
  lemma ArrayIndexIff(k: string, i: nat)
    ensures ArrayIndex(k) == Some(i) <==> k == NatToString(i)
  {
    NatToStringCanonical(i);
    if CanonicalDigits(k) {
      CanonicalIsNatToString(k);
    }
  }

  /** `k in v` for a container: own keys of an object; "length" and element indices of an array. */
  predicate HasKey(v: Json, k: string)
    requires IsObject(v)
  {
    match v
    case Obj(m) => k in m
    case Arr(items) =>
      k == "length" || (ArrayIndex(k).Some? && ArrayIndex(k).value < |items|)
  }

  /** `v[k]` for a key that `HasKey` admits. */
  function Get(v: Json, k: string): (r: Json)
    requires IsObject(v) && HasKey(v, k)
  {
    match v
    case Obj(m) => m[k]
    case Arr(items) =>
      if k == "length" then Num(|items|) else items[ArrayIndex(k).value]
  }

  /** `v[k]` for any value: a TypeError on null and undefined, undefined for a missing key. */
  function Prop(v: Json, k: string): (r: Result<Json, Exception>)
    ensures r.Err? <==> v.Null? || v.Undefined?
    ensures IsObject(v) && !HasKey(v, k) ==> r == Ok(Undefined)
  {
    if v.Null? || v.Undefined? then Err(TypeError("Cannot read properties of null or undefined"))
    else if IsObject(v) && HasKey(v, k) then Ok(Get(v, k))
    else Ok(Undefined)
  }

  // ---- String(v) -------------------------------------------------------------

  /**
   * `String(v)`. Arrays join their elements with "," and render null and
   * undefined elements as the empty string, as `Array.prototype.join` does.
   */
  function StringOf(v: Json): (r: string)
  {
    match v
    case Undefined => "undefined"
    case Null => "null"
    case Bool(b) => if b then "true" else "false"
    case Num(n) => IntToString(n)
    case NaN => "NaN"
    case Str(s) => s
    case Arr(items) => JoinElements(items)
    case Obj(_) => "[object Object]"
  }

  function JoinElements(items: seq<Json>): (r: string)
  {
    if |items| == 0 then ""
    else
      var first := if items[0].Null? || items[0].Undefined? then "" else StringOf(items[0]);
      if |items| == 1 then first else first + "," + JoinElements(items[1..])
  }

  /** `v.toString()`: a TypeError on null and undefined, `String(v)` otherwise. */
  function ToStringCall(v: Json): (r: Result<string, Exception>)
    ensures r.Err? <==> v.Null? || v.Undefined?
    ensures r.Ok? ==> r.value == StringOf(v)
  {
    if v.Null? || v.Undefined? then Err(TypeError("Cannot read properties of null or undefined"))
    else Ok(StringOf(v))
  }

  // ---- parseInt(s, 10) -------------------------------------------------------

  /** The characters `parseInt` skips at the front: white space and line terminators. */
  predicate IsSpace(c: char)
  {
    c == ' ' || c == '\t' || c == '\n' || c == '\U{000B}' || c == '\U{000C}' || c == '\r'
    || c == '\U{00A0}' || c == '\U{1680}' || ('\U{2000}' <= c <= '\U{200A}')
    || c == '\U{2028}' || c == '\U{2029}' || c == '\U{202F}' || c == '\U{205F}'
    || c == '\U{3000}' || c == '\U{FEFF}'
  }

  function TrimStart(s: string): (r: string)
  {
    if s != [] && IsSpace(s[0]) then TrimStart(s[1..]) else s
  }

  /** The longest prefix of `s` made of decimal digits. */
  function DigitPrefix(s: string): (r: string)
    ensures AllDigits(r)
  {
    if s != [] && IsDigit(s[0]) then [s[0]] + DigitPrefix(s[1..]) else ""
  }

  /** `TrimStart` removes a prefix of white space, and all of it. */
  lemma {:induction false} TrimStartSkipsSpace(s: string)
    ensures |TrimStart(s)| <= |s| && TrimStart(s) == s[|s| - |TrimStart(s)|..]
    ensures forall i :: 0 <= i < |s| - |TrimStart(s)| ==> IsSpace(s[i])
    ensures TrimStart(s) == [] || !IsSpace(TrimStart(s)[0])
  {
    if s != [] && IsSpace(s[0]) {
      TrimStartSkipsSpace(s[1..]);
      forall i | 0 < i < |s| - |TrimStart(s)|
        ensures IsSpace(s[i])
      {
        assert s[i] == s[1..][i - 1];
      }
    }
  }

  /** `DigitPrefix` is a prefix, and the character after it is not a digit. */
  lemma {:induction false} DigitPrefixLongest(s: string)
    ensures |DigitPrefix(s)| <= |s| && DigitPrefix(s) == s[..|DigitPrefix(s)|]
    ensures |DigitPrefix(s)| < |s| ==> !IsDigit(s[|DigitPrefix(s)|])
  {
    if s != [] && IsDigit(s[0]) {
      DigitPrefixLongest(s[1..]);
      assert s[1..][..|DigitPrefix(s[1..])|] == s[1..|DigitPrefix(s)|];
    }
  }

  /**
   * `parseInt(s, 10)` on a string: skip leading white space, read an optional
   * sign and then the longest run of digits; `None` is NaN (no digit at all).
   * Anything after the digits is ignored.
   */
  function ParseInt(s: string): (r: Option<int>)
  {
    var t := TrimStart(s);
    var negative := |t| > 0 && t[0] == '-';
    var u := if |t| > 0 && (t[0] == '-' || t[0] == '+') then t[1..] else t;
    var ds := DigitPrefix(u);
    var magnitude: int := if ds == [] then 0 else DigitsValue(ds);
    if ds == [] then None
    else Some(if negative then -magnitude else magnitude)
  }

  /** The digit run read by `parseInt` ends at the first non-digit. */
  lemma {:induction false} DigitPrefixStops(ds: string, tail: string)
    requires AllDigits(ds)
    requires tail == [] || !IsDigit(tail[0])
    ensures DigitPrefix(ds + tail) == ds
  {
    if ds != [] {
      assert (ds + tail)[1..] == ds[1..] + tail;
      DigitPrefixStops(ds[1..], tail);
    } else {
      assert ds + tail == tail;
    }
  }

  /**
   * `parseInt(String(n) + tail, 10) == n` whenever `tail` does not continue
   * the digits: the rendering of an integer parses back to it, and trailing
   * text is ignored.
   */
  lemma ParseIntPrefix(n: int, tail: string)
    requires tail == [] || !IsDigit(tail[0])
    ensures ParseInt(IntToString(n) + tail) == Some(n)
  {
    if n < 0 {
      ParseIntNegative(-n, tail);
      assert IntToString(n) + tail == "-" + (NatToString(-n) + tail);
    } else {
      ParseIntDigits(n, tail);
    }
  }

  /** The digits of a natural number, followed by a non-digit, parse back to it. */
  lemma ParseIntDigits(m: nat, tail: string)
    requires tail == [] || !IsDigit(tail[0])
    ensures ParseInt(NatToString(m) + tail) == Some(m)
  {
    var ds := NatToString(m);
    NatToStringCanonical(m);
    DigitPrefixStops(ds, tail);
    var s := ds + tail;
    assert s[0] == ds[0];
    assert IsDigit(s[0]);
    assert !IsSpace(s[0]);
    assert TrimStart(s) == s;
    assert s[0] != '-' && s[0] != '+';
  }

  /** A minus sign followed by the digits of a natural number parses to its negation. */
  lemma ParseIntNegative(m: nat, tail: string)
    requires tail == [] || !IsDigit(tail[0])
    ensures ParseInt("-" + (NatToString(m) + tail)) == Some(-(m as int))
  {
    var ds := NatToString(m);
    NatToStringCanonical(m);
    DigitPrefixStops(ds, tail);
    var s := "-" + (ds + tail);
    assert s[0] == '-';
    assert !IsSpace(s[0]);
    assert TrimStart(s) == s;
    assert s[1..] == ds + tail;
  }

  /** `parseInt(String(n), 10) == n`. */
  lemma ParseIntOfIntToString(n: int)
    ensures ParseInt(IntToString(n)) == Some(n)
  {
    ParseIntPrefix(n, []);
    assert IntToString(n) + [] == IntToString(n);
  }
}
