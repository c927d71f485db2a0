/**
 * The small part of JavaScript's value semantics that the client relies on:
 * parsed JSON values, property lookup that may throw, the string coercion
 * used by `+`, lodash's shallow `_.extend`, and the built-in `escape()`.
 */
module Js {
  import opened Wrappers

  /** A value produced by `JSON.parse`. Numbers are integers in this model. */
  datatype Json =
    | JNull
    | JBool(b: bool)
    | JNum(n: int)
    | JStr(s: string)
    | JArr(items: seq<Json>)
    | JObj(fields: Obj)

  /** A plain object: own property names and their values. */
  type Obj = map<string, Json>

  /** The error a property read on `null` or `undefined` throws. */
  const TypeError: string := "TypeError"

  /**
   * `_.extend(target, source)`: copies every own property of `source` onto
   * `target`, so that `source` wins on a shared key. The copy is shallow: a
   * nested object of `source` replaces the one in `target` as a whole.
   */
  function Extend(target: Obj, source: Obj): (r: Obj)
    ensures r.Keys == target.Keys + source.Keys
    ensures forall k :: k in source ==> r[k] == source[k]
    ensures forall k :: k in target && k !in source ==> r[k] == target[k]
  {
    target + source
  }

  /**
   * `v[key]` where `v` may be `undefined` (None). Reading a property of
   * `undefined` or `null` throws; a primitive or an array has none of the
   * property names this client looks up.
   */
  function GetProp(v: Option<Json>, key: string): (r: Result<Option<Json>, string>)
    ensures r.Failure? <==> (v == None || v == Some(JNull))
    ensures r.Failure? ==> r.error == TypeError
    ensures r.Success? ==> (r.value.Some? <==> v.value.JObj? && key in v.value.fields)
    ensures r.Success? && r.value.Some? ==> v.Some? && v.value.JObj? && key in v.value.fields
                                              && r.value.value == v.value.fields[key]
  {
    match v
    case None => Failure(TypeError)
    case Some(JNull) => Failure(TypeError)
    case Some(JObj(m)) => Success(if key in m then Some(m[key]) else None)
    case Some(_) => Success(None)
  }

  // ----- decimal rendering of integers ------------------------------------

  function DigitChar(d: int): char
    requires 0 <= d < 10
  {
    ('0' as int + d) as char
  }

  function DigitValue(c: char): int {
    c as int - '0' as int
  }

  predicate IsDigit(c: char) {
    '0' <= c <= '9'
  }

  /** Decimal digits of a natural number, most significant first, without leading zeros. */
  function NatToString(n: nat): (r: string)
    ensures |r| >= 1
    ensures forall i :: 0 <= i < |r| ==> IsDigit(r[i])
    ensures (r[0] == '0') <==> n == 0
  {
    if n < 10 then [DigitChar(n)] else NatToString(n / 10) + [DigitChar(n % 10)]
  }

  /** The number a sequence of decimal digits denotes. */
  function DigitsValue(s: string): int {
    if s == [] then 0 else 10 * DigitsValue(s[..|s| - 1]) + DigitValue(s[|s| - 1])
  }

  lemma {:induction false} NatToStringRoundTrip(n: nat)
    ensures DigitsValue(NatToString(n)) == n
  {
    var r := NatToString(n);
    if n >= 10 {
      NatToStringRoundTrip(n / 10);
      assert r[..|r| - 1] == NatToString(n / 10);
    }
  }

  /**
   * `String(n)` for an integer `n` below 10^21 in magnitude (JavaScript writes
   * larger numbers in exponent form): an optional '-', then the decimal digits
   * of |n| without leading zeros.
   */
  function IntToString(n: int): (r: string)
    ensures |r| >= 1
    ensures (r[0] == '-') <==> n < 0
    ensures var digits := if n < 0 then r[1..] else r;
            |digits| >= 1 && (forall i :: 0 <= i < |digits| ==> IsDigit(digits[i]))
            && DigitsValue(digits) == (if n < 0 then -n else n)
            && ((digits[0] == '0') <==> n == 0)
  {
    if n < 0 then
      NatToStringRoundTrip(-n);
      assert ("-" + NatToString(-n))[1..] == NatToString(-n);
      "-" + NatToString(-n)
    else
      NatToStringRoundTrip(n);
      NatToString(n)
  }

  // ----- string coercion ---------------------------------------------------

  /**
   * The string `+` makes of a value: `undefined` reads "undefined", `null`
   * "null", an array joins its elements with "," (a `null` element becomes
   * the empty string) and every other object reads "[object Object]".
   */
  function ToJsString(v: Option<Json>): string {
    match v
    case None => "undefined"
    case Some(j) => JsonToString(j)
  }

  function JsonToString(j: Json): string {
    match j
    case JNull => "null"
    case JBool(b) => if b then "true" else "false"
    case JNum(n) => IntToString(n)
    case JStr(s) => s
    case JArr(xs) => JoinElements(xs)
    case JObj(_) => "[object Object]"
  }

  /** `Array.prototype.join(",")`, where `null` elements contribute "". */
  function JoinElements(xs: seq<Json>): string
    decreases xs
  {
    if xs == [] then ""
    else
      var first := if xs[0] == JNull then "" else JsonToString(xs[0]);
      if |xs| == 1 then first else first + "," + JoinElements(xs[1..])
  }

  // ----- the built-in escape() --------------------------------------------

  /** The characters `escape()` leaves as they are. */
  predicate Unescaped(c: char) {
    ('A' <= c <= 'Z') || ('a' <= c <= 'z') || ('0' <= c <= '9') || c in "@*_+-./"
  }

  /** The UTF-16 code units of one character (a JavaScript string is made of these). */
  function Utf16(c: char): (r: seq<int>)
    ensures 1 <= |r| <= 2
    ensures forall i :: 0 <= i < |r| ==> 0 <= r[i] < 0x1_0000
  {
    if c as int < 0x1_0000 then [c as int]
    else
      var v := c as int - 0x1_0000;
      [0xD800 + v / 0x400, 0xDC00 + v % 0x400]
  }

  function HexDigit(d: int): (c: char)
    requires 0 <= d < 16
    ensures Unescaped(c)
  {
    "0123456789ABCDEF"[d]
  }

  /** `%XX` for a code unit below 256, `%uXXXX` otherwise (upper-case hex). */
  function EscapeUnit(u: int): (r: string)
    requires 0 <= u < 0x1_0000
    ensures |r| >= 3 && r[0] == '%'
    ensures forall i :: 1 <= i < |r| ==> Unescaped(r[i])
  {
    if u < 256 then ['%', HexDigit(u / 16), HexDigit(u % 16)]
    else ['%', 'u', HexDigit(u / 0x1000), HexDigit(u / 0x100 % 16), HexDigit(u / 16 % 16), HexDigit(u % 16)]
  }

  function EscapeUnits(us: seq<int>): (r: string)
    requires forall i :: 0 <= i < |us| ==> 0 <= us[i] < 0x1_0000
    ensures forall i :: 0 <= i < |r| ==> Unescaped(r[i]) || r[i] == '%'
  {
    if us == [] then "" else EscapeUnit(us[0]) + EscapeUnits(us[1..])
  }

  function EscapeChar(c: char): string {
    if Unescaped(c) then [c] else EscapeUnits(Utf16(c))
  }

  /** `escape(s)`. */
  function Escape(s: string): string {
    if s == [] then "" else EscapeChar(s[0]) + Escape(s[1..])
  }

  /** A string made only of characters `escape()` keeps is its own escape. */
  lemma {:induction false} EscapeKeepsSafeText(s: string)
    requires forall i :: 0 <= i < |s| ==> Unescaped(s[i])
    ensures Escape(s) == s
  {
    if s != [] {
      EscapeKeepsSafeText(s[1..]);
    }
  }

  /** Whatever the input, `escape()` yields only kept characters and `%`. */
  lemma {:induction false} EscapeOutputAlphabet(s: string)
    ensures forall i :: 0 <= i < |Escape(s)| ==> Unescaped(Escape(s)[i]) || Escape(s)[i] == '%'
  {
    if s != [] {
      EscapeOutputAlphabet(s[1..]);
      var h, t := EscapeChar(s[0]), Escape(s[1..]);
      assert Escape(s) == h + t;
      forall i | 0 <= i < |h + t| ensures Unescaped((h + t)[i]) || (h + t)[i] == '%' {
        if i >= |h| { assert (h + t)[i] == t[i - |h|]; }
      }
    }
  }
}
