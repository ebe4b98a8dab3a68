/** The small part of JavaScript's value semantics that the application's code relies on:
    dynamic values as the document store hands them over, truthiness, `||`, the
    `Number`, `Boolean` and `String` conversions, the `\s` whitespace class, ASCII case
    mapping, UTF-16 code units and the signed 32-bit wrap of `|0`.
    Numbers are modelled as integers. A string is a sequence of Unicode scalar values,
    one `char` each; `Utf16` gives the code units JavaScript sees, which is what
    `length` counts and `charCodeAt` reads. */
module Js {
  import opened Wrappers

  /** A JavaScript value as it can appear in a document: `undefined` (a missing field),
      `null`, a boolean, an integral number or NaN, a string, a document reference (given
      by its path segments) or an array. */
  datatype Value =
    | Undefined
    | Null
    | Bool(b: bool)
    | Num(n: int)
    | NumNaN
    | Str(s: string)
    | Ref(path: seq<string>)
    | Arr(items: seq<Value>)

  /** The result of `Number(x)`. */
  datatype Number = NaN | Finite(n: int)

  /** ToBoolean: the falsy values are undefined, null, false, 0 and "". */
  predicate Truthy(v: Value) {
    match v
    case Undefined => false
    case Null => false
    case Bool(b) => b
    case Num(n) => n != 0
    case NumNaN => false
    case Str(s) => s != ""
    case Ref(_) => true
    case Arr(_) => true
  }

  /** `a || b` */
  function Or(a: Value, b: Value): (r: Value)
    ensures Truthy(a) ==> r == a
    ensures !Truthy(a) ==> r == b
  {
    if Truthy(a) then a else b
  }

  /** `a === b`. NaN equals nothing; references and arrays, which JavaScript compares by
      identity, are compared by content here. */
  predicate StrictEq(a: Value, b: Value) {
    a == b && !a.NumNaN?
  }

  /** `x.id` of a document reference: its last path segment; any other value has no `id`. */
  function IdOf(v: Value): (r: Value)
    ensures v.Ref? && |v.path| > 0 <==> r.Str?
    ensures r.Str? ==> r.s == v.path[|v.path| - 1]
  {
    if v.Ref? && |v.path| > 0 then Str(v.path[|v.path| - 1]) else Undefined
  }

  /** A string field that may be missing: `undefined` or a string. */
  predicate TruthyStr(o: Option<string>) {
    o.Some? && o.value != ""
  }

  /** The characters matched by `\s` (ECMAScript WhiteSpace and LineTerminator). */
  predicate IsWhitespace(c: char) {
    c == '\t' || c == '\n' || c == '\U{000B}' || c == '\U{000C}' || c == '\r' || c == ' '
    || c == '\U{00A0}' || c == '\U{1680}' || ('\U{2000}' <= c <= '\U{200A}')
    || c == '\U{2028}' || c == '\U{2029}' || c == '\U{202F}' || c == '\U{205F}'
    || c == '\U{3000}' || c == '\U{FEFF}'
  }

  predicate IsDigit(c: char) { '0' <= c <= '9' }
  predicate IsUpperAscii(c: char) { 'A' <= c <= 'Z' }
  predicate IsLowerAscii(c: char) { 'a' <= c <= 'z' }
  predicate IsAsciiLetter(c: char) { IsUpperAscii(c) || IsLowerAscii(c) }

  /** `\w` without the `u` flag. */
  predicate IsWordChar(c: char) { IsAsciiLetter(c) || IsDigit(c) || c == '_' }

  function LowerChar(c: char): (r: char)
    ensures IsUpperAscii(c) ==> IsLowerAscii(r)
    ensures !IsUpperAscii(c) ==> r == c
  {
    if IsUpperAscii(c) then (c as int + 32) as char else c
  }

  function UpperChar(c: char): (r: char)
    ensures IsLowerAscii(c) ==> IsUpperAscii(r)
    ensures !IsLowerAscii(c) ==> r == c
  {
    if IsLowerAscii(c) then (c as int - 32) as char else c
  }

  /** `s.toLowerCase()` on ASCII letters. */
  function ToLowerCase(s: string): (r: string)
    ensures |r| == |s|
    ensures forall i :: 0 <= i < |s| ==> r[i] == LowerChar(s[i])
  {
    seq(|s|, i requires 0 <= i < |s| => LowerChar(s[i]))
  }

  // ---- UTF-16 ----

  /** The UTF-16 code units of one character: the character itself below U+10000,
      otherwise a high and a low surrogate that together encode it. */
  function CodeUnits(c: char): (units: seq<nat>)
    ensures 1 <= |units| <= 2
    ensures |units| == 1 <==> c as int < 0x1_0000
    ensures |units| == 1 ==> units[0] == c as int
    ensures |units| == 2 ==>
      && 0xD800 <= units[0] < 0xDC00 <= units[1] < 0xE000
      && 0x1_0000 + (units[0] - 0xD800) * 0x400 + (units[1] - 0xDC00) == c as int
  {
    var n := c as int;
    if n < 0x1_0000 then [n]
    else [0xD800 + (n - 0x1_0000) / 0x400, 0xDC00 + (n - 0x1_0000) % 0x400]
  }

  /** The code units of a string, in order. */
  function Utf16(s: string): (units: seq<nat>)
    ensures |units| >= |s|
  {
    if s == [] then [] else Utf16(s[..|s| - 1]) + CodeUnits(s[|s| - 1])
  }

  /** `s.length`: the number of UTF-16 code units, two for each character above U+FFFF. */
  function Length(s: string): (n: nat)
    ensures n >= |s|
  {
    |Utf16(s)|
  }

  /** The code units of a concatenation are those of its parts. */
  lemma {:induction false} Utf16Append(a: string, b: string)
    ensures Utf16(a + b) == Utf16(a) + Utf16(b)
  {
    if b == [] {
      assert a + b == a;
    } else {
      Utf16Append(a, b[..|b| - 1]);
      assert (a + b)[..|a + b| - 1] == a + b[..|b| - 1];
      assert (a + b)[|a + b| - 1] == b[|b| - 1];
    }
  }

  /** Without characters above U+FFFF the code units are the characters themselves. */
  lemma {:induction false} BmpUtf16(s: string)
    requires forall i :: 0 <= i < |s| ==> s[i] as int < 0x1_0000
    ensures Utf16(s) == seq(|s|, i requires 0 <= i < |s| => s[i] as nat)
    ensures Length(s) == |s|
  {
    if s != [] {
      BmpUtf16(s[..|s| - 1]);
    }
  }

  /** `s.substring(0, n)` where it does not split a surrogate pair: the longest prefix
      of `s` that is at most `n` code units long. */
  function PrefixWithin(s: string, n: nat): (p: string)
    ensures |p| <= |s| && p == s[..|p|]
    ensures Length(p) <= n
    ensures |p| < |s| ==> Length(s[..|p| + 1]) > n
  {
    if Length(s) <= n then s
    else
      var p := PrefixWithin(s[..|s| - 1], n);
      assert s[..|s| - 1][..|p|] == s[..|p|];
      if |p| < |s| - 1 then assert s[..|s| - 1][..|p| + 1] == s[..|p| + 1]; p
      else assert s[..|p| + 1] == s; p
  }

  /** Index of the last occurrence of `c` in `s` (`lastIndexOf`), -1 when absent. */
  function LastIndexOf(s: string, c: char): (r: int)
    ensures -1 <= r < |s|
    ensures r >= 0 ==> s[r] == c
    ensures forall i :: r < i < |s| ==> s[i] != c
  {
    if s == [] then -1
    else if s[|s| - 1] == c then |s| - 1
    else LastIndexOf(s[..|s| - 1], c)
  }

  /** Index of the first occurrence of `c` in `s`, or |s| when absent. */
  function IndexOf(s: string, c: char): (r: nat)
    ensures r <= |s|
    ensures r < |s| ==> s[r] == c
    ensures forall i :: 0 <= i < r ==> s[i] != c
  {
    if s == [] then 0
    else if s[0] == c then 0
    else 1 + IndexOf(s[1..], c)
  }

  /** `s.trim()`: drop `\s` characters at both ends. */
  function Trim(s: string): (r: string)
    ensures |r| <= |s|
    ensures r != [] ==> !IsWhitespace(r[0]) && !IsWhitespace(r[|r| - 1])
    ensures r == [] <==> forall k :: 0 <= k < |s| ==> IsWhitespace(s[k])
  {
    TrimEnd(TrimStart(s))
  }

  function TrimStart(s: string): (r: string)
    ensures |r| <= |s| && r == s[|s| - |r|..]
    ensures r != [] ==> !IsWhitespace(r[0])
    ensures r == [] <==> forall k :: 0 <= k < |s| ==> IsWhitespace(s[k])
  {
    if s != [] && IsWhitespace(s[0]) then TrimStart(s[1..]) else s
  }

  function TrimEnd(s: string): (r: string)
    ensures |r| <= |s| && r == s[..|r|]
    ensures r != [] ==> !IsWhitespace(r[|r| - 1])
    ensures r == [] <==> forall k :: 0 <= k < |s| ==> IsWhitespace(s[k])
  {
    if s != [] && IsWhitespace(s[|s| - 1]) then TrimEnd(s[..|s| - 1]) else s
  }

  // ---- Number(x) ----

  function DigitsValue(s: string): (r: nat)
    requires forall i :: 0 <= i < |s| ==> IsDigit(s[i])
  {
    if s == [] then 0
    else
      var last := s[|s| - 1];
      assert IsDigit(last);
      10 * DigitsValue(s[..|s| - 1]) + (last as int - '0' as int)
  }

  predicate AllDigits(s: string) {
    s != [] && forall i :: 0 <= i < |s| ==> IsDigit(s[i])
  }

  /** StringToNumber, for an optionally signed decimal integer between optional
      whitespace; every other spelling (fractions, exponents, hex, "Infinity") is NaN here. */
  function StringToNumber(s: string): Number {
    var t := Trim(s);
    if t == [] then Finite(0)
    else if AllDigits(t) then Finite(DigitsValue(t))
    else if (t[0] == '-' || t[0] == '+') && AllDigits(t[1..]) then
      var d: int := DigitsValue(t[1..]);
      Finite(if t[0] == '-' then -d else d)
    else NaN
  }

  /** `Number(v)` */
  function ToNumber(v: Value): (r: Number)
    ensures v.Num? ==> r == Finite(v.n)
    ensures v.Undefined? ==> r == NaN
  {
    match v
    case Undefined => NaN
    case Null => Finite(0)
    case Bool(b) => Finite(if b then 1 else 0)
    case Num(n) => Finite(n)
    case NumNaN => NaN
    case Str(s) => StringToNumber(s)
    case Ref(_) => NaN
    case Arr(items) => StringToNumber(JoinItems(items))
  }

  /** `Number(v) || 0` */
  function NumberOrZero(v: Value): (r: int)
    ensures ToNumber(v).NaN? ==> r == 0
    ensures ToNumber(v).Finite? ==> r == ToNumber(v).n
    ensures v.Num? ==> r == v.n
  {
    match ToNumber(v)
    case NaN => 0
    case Finite(n) => n
  }

  // ---- String(x) ----

  function DigitChar(d: nat): char
    requires d < 10
  {
    ('0' as int + d) as char
  }

  function NatToString(n: nat): (r: string)
    ensures r != [] && AllDigits(r)
    decreases n
  {
    if n < 10 then [DigitChar(n)] else NatToString(n / 10) + [DigitChar(n % 10)]
  }

  function IntToString(n: int): string {
    if n < 0 then "-" + NatToString(-n) else NatToString(n)
  }

  /** `String(v)`; an array joins its elements with ",", undefined and null elements
      giving the empty string. */
  function ToStr(v: Value): string
    decreases v, 1
  {
    match v
    case Undefined => "undefined"
    case Null => "null"
    case Bool(b) => if b then "true" else "false"
    case Num(n) => IntToString(n)
    case NumNaN => "NaN"
    case Str(s) => s
    case Ref(_) => "[object Object]"
    case Arr(items) => JoinItems(items)
  }

  function JoinItems(items: seq<Value>): string
    decreases items, 0
  {
    if items == [] then ""
    else
      var head := if items[0].Undefined? || items[0].Null? then "" else ToStr(items[0]);
      if |items| == 1 then head else head + "," + JoinItems(items[1..])
  }

  // ---- 32-bit integers ----

  const TWO_32: int := 0x1_0000_0000
  const TWO_31: int := 0x8000_0000

  predicate IsInt32(x: int) { -TWO_31 <= x < TWO_31 }

  /** ToInt32, the conversion behind `x | 0`, `x << k` and `x & m`. */
  function ToInt32(x: int): (r: int)
    ensures IsInt32(r)
    ensures (r - x) % TWO_32 == 0
  {
    var m := x % TWO_32;
    if m >= TWO_31 then m - TWO_32 else m
  }

  // ---- parseInt ----

  /** The longest prefix of `s` made of decimal digits. */
  function DigitPrefix(s: string): (d: string)
    ensures |d| <= |s| && d == s[..|d|]
    ensures forall i :: 0 <= i < |d| ==> IsDigit(d[i])
    ensures |d| < |s| ==> !IsDigit(s[|d|])
  {
    if s != [] && IsDigit(s[0]) then [s[0]] + DigitPrefix(s[1..]) else []
  }

  /** `parseInt(v)` in base 10 reads `String(v)`. */
  function ParseInt(v: Value): (r: Value)
    ensures r.Num? || r.NumNaN?
  {
    ParseIntString(ToStr(v))
  }

  /** `parseInt(s)` in base 10: without leading whitespace, an optional sign, then the
      leading decimal digits; NaN when there are none. */
  function ParseIntString(s: string): (r: Value)
    ensures r.Num? || r.NumNaN?
  {
    var t := TrimStart(s);
    var signed := t != [] && (t[0] == '-' || t[0] == '+');
    var digits := DigitPrefix(if signed then t[1..] else t);
    if digits == [] then NumNaN
    else if signed && t[0] == '-' then Num(0 - DigitsValue(digits) as int)
    else Num(DigitsValue(digits))
  }

  /** An integer survives `parseInt` unchanged. */
  lemma ParseIntOfInteger(n: int)
    ensures ParseInt(Num(n)) == Num(n)
  {
    assert ToStr(Num(n)) == IntToString(n);
    if n < 0 {
      DigitsOfNat(-n);
      ParseIntOfNegative(NatToString(-n));
    } else {
      DigitsOfNat(n);
      ParseIntOfDigits(NatToString(n));
    }
  }

  lemma ParseIntOfDigits(digits: string)
    requires AllDigits(digits)
    ensures ParseIntString(digits) == Num(DigitsValue(digits))
  {
    DigitPrefixOfDigits(digits);
    assert !IsWhitespace(digits[0]) && digits[0] != '-' && digits[0] != '+';
    assert TrimStart(digits) == digits;
  }

  lemma ParseIntOfNegative(digits: string)
    requires AllDigits(digits)
    ensures ParseIntString("-" + digits) == Num(0 - DigitsValue(digits) as int)
  {
    var t := "-" + digits;
    DigitPrefixOfDigits(digits);
    assert !IsWhitespace(t[0]);
    assert TrimStart(t) == t;
    assert t[1..] == digits;
  }

  lemma {:induction false} DigitPrefixOfDigits(s: string)
    requires forall i :: 0 <= i < |s| ==> IsDigit(s[i])
    ensures DigitPrefix(s) == s
  {
    if s != [] {
      DigitPrefixOfDigits(s[1..]);
    }
  }

  lemma {:induction false} DigitsOfNat(n: nat)
    ensures DigitsValue(NatToString(n)) == n
    decreases n
  {
    if n >= 10 {
      DigitsOfNat(n / 10);
      var s := NatToString(n);
      assert s[..|s| - 1] == NatToString(n / 10);
    }
  }

  // ---- objects ----

  /** A plain object: its own enumerable properties. A property that explicitly holds
      `undefined` is present; reading an absent one gives `undefined` as well. */
  type Obj = map<string, Value>

  /** `o[key]` */
  function Get(o: Obj, key: string): Value {
    if key in o then o[key] else Undefined
  }

  /** `_.omit(o, keys)`: a shallow copy without the given keys. */
  function Omit(o: Obj, keys: set<string>): (r: Obj)
    ensures forall k :: k in r <==> k in o && k !in keys
    ensures forall k :: k in r ==> r[k] == o[k]
  {
    map k | k in o && k !in keys :: o[k]
  }
}
