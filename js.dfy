/**
 * JavaScript runtime values as the policy engine sees them: raw policy
 * documents, ids, versions and attribute objects are untyped, and every
 * normalizer decides by JavaScript's own coercions (truthiness, typeof,
 * Number(), String()). Numbers are modelled as integers.
 */
module Js {

  datatype Option<+T> = None | Some(value: T)

  /** A JavaScript value. An object is its own enumerable fields; a function
      is known by its name only. */
  datatype Value =
    | Undefined
    | Null
    | Bool(b: bool)
    | Num(n: int)
    | Str(s: string)
    | Arr(items: seq<Value>)
    | Obj(fields: map<string, Value>)
    | Fn(name: string)

  /** `!!v` */
  predicate Truthy(v: Value)
  {
    match v
    case Undefined => false
    case Null => false
    case Bool(b) => b
    case Num(n) => n != 0
    case Str(s) => s != ""
    case _ => true
  }

  /** utils.isPresent: neither null nor undefined */
  predicate IsPresent(v: Value)
  {
    !v.Null? && !v.Undefined?
  }

  /** utils.isObject: typeof 'object', not an array, not null */
  predicate IsObject(v: Value)
  {
    v.Obj?
  }

  /** utils.isNumber: `!isNaN(Number(v)) && isFinite(v)`, i.e. Number(v) is finite.
      Booleans and null coerce to 0 or 1; strings and arrays go through their
      string form; undefined, objects and functions give NaN. */
  predicate IsNumber(v: Value)
  {
    match v
    case Undefined => false
    case Null => true
    case Bool(_) => true
    case Num(_) => true
    case Str(s) => NumericString(s)
    case Arr(_) => NumericString(ToString(v))
    case Obj(_) => false
    case Fn(_) => false
  }

  /** `String(v)`, also the property key JavaScript uses for `o[v]`. */
  function ToString(v: Value): string
    decreases v, 1
  {
    match v
    case Undefined => "undefined"
    case Null => "null"
    case Bool(b) => if b then "true" else "false"
    case Num(n) => IntToString(n)
    case Str(s) => s
    case Arr(items) => JoinFrom(v, 0)
    case Obj(_) => "[object Object]"
    case Fn(name) => "function " + name + "() {}"
  }

  /** `Array.prototype.join(',')` from index i: null and undefined print as "". */
  function JoinFrom(v: Value, i: nat): string
    requires v.Arr? && i <= |v.items|
    decreases v, 0, |v.items| - i
  {
    if i == |v.items| then ""
    else
      var x := v.items[i];
      assert x in v.items;
      var s := if x.Null? || x.Undefined? then "" else ToString(x);
      (if i == 0 then "" else ",") + s + JoinFrom(v, i + 1)
  }

  function DigitChar(d: nat): char
    requires d < 10
  {
    "0123456789"[d]
  }

  function NatToString(n: nat): (r: string)
    ensures |r| > 0 && forall i :: 0 <= i < |r| ==> IsDigit(r[i])
  {
    if n < 10 then [DigitChar(n)] else NatToString(n / 10) + [DigitChar(n % 10)]
  }

  function IntToString(n: int): string
  {
    if n < 0 then "-" + NatToString(-n) else NatToString(n)
  }

  predicate IsDigit(c: char)
  {
    '0' <= c <= '9'
  }

  predicate Digits(s: string)
  {
    forall i :: 0 <= i < |s| ==> IsDigit(s[i])
  }

  predicate IsHexDigit(c: char)
  {
    IsDigit(c) || 'a' <= c <= 'f' || 'A' <= c <= 'F'
  }

  /** JavaScript's StrWhiteSpaceChar, restricted to the Latin-1 range plus BOM,
      line and paragraph separators. */
  predicate IsSpace(c: char)
  {
    c == ' ' || c == '\t' || c == '\n' || c == '\r' || c == '\U{B}' || c == '\U{C}'
    || c == '\U{A0}' || c == '\U{FEFF}' || c == '\U{2028}' || c == '\U{2029}'
  }

  function TrimStart(s: string): (r: string)
    ensures |r| <= |s|
  {
    if |s| > 0 && IsSpace(s[0]) then TrimStart(s[1..]) else s
  }

  function TrimEnd(s: string): (r: string)
    ensures |r| <= |s|
  {
    if |s| > 0 && IsSpace(s[|s| - 1]) then TrimEnd(s[..|s| - 1]) else s
  }

  /** Index of the first character of s satisfying one of two choices, or |s|. */
  function IndexOf(s: string, c1: char, c2: char): (k: nat)
    ensures k <= |s|
    ensures forall j :: 0 <= j < k ==> s[j] != c1 && s[j] != c2
    ensures k < |s| ==> s[k] == c1 || s[k] == c2
  {
    if |s| == 0 then 0
    else if s[0] == c1 || s[0] == c2 then 0
    else 1 + IndexOf(s[1..], c1, c2)
  }

  /** Digits with at most one '.', at least one digit in all. */
  predicate Mantissa(m: string)
  {
    var d := IndexOf(m, '.', '.');
    if d == |m| then |m| > 0 && Digits(m)
    else Digits(m[..d]) && Digits(m[d + 1..]) && |m| > 1
  }

  predicate SignedDigits(x: string)
  {
    if |x| > 0 && (x[0] == '+' || x[0] == '-') then |x| > 1 && Digits(x[1..])
    else |x| > 0 && Digits(x)
  }

  /** A StrUnsignedDecimalLiteral other than Infinity. */
  predicate UnsignedDecimal(s: string)
  {
    var e := IndexOf(s, 'e', 'E');
    Mantissa(s[..e]) && (e == |s| || SignedDigits(s[e + 1..]))
  }

  /** 0x, 0o and 0b literals; they take no sign. */
  predicate NonDecimal(s: string)
  {
    |s| > 2 && s[0] == '0' &&
    if s[1] == 'x' || s[1] == 'X' then forall i :: 2 <= i < |s| ==> IsHexDigit(s[i])
    else if s[1] == 'o' || s[1] == 'O' then forall i :: 2 <= i < |s| ==> '0' <= s[i] <= '7'
    else if s[1] == 'b' || s[1] == 'B' then forall i :: 2 <= i < |s| ==> s[i] == '0' || s[i] == '1'
    else false
  }

  /** Number(s) is finite: after trimming, empty (0), a decimal literal with an
      optional sign, or a 0x/0o/0b literal. */
  predicate NumericString(s: string)
  {
    var t := TrimEnd(TrimStart(s));
    if |t| == 0 then true
    else if t[0] == '+' || t[0] == '-' then UnsignedDecimal(t[1..])
    else UnsignedDecimal(t) || NonDecimal(t)
  }

  /** Reading `v[name]`: objects answer from their fields, other non-nullish
      values answer undefined for every name used here, and null or undefined
      throw a TypeError (None). */
  function Prop(v: Value, name: string): Option<Value>
  {
    match v
    case Undefined => None
    case Null => None
    case Obj(fields) => Some(if name in fields then fields[name] else Undefined)
    case _ => Some(Undefined)
  }

  /** A field of an object's field map, undefined when absent. */
  function Field(fields: map<string, Value>, name: string): Value
  {
    if name in fields then fields[name] else Undefined
  }
}
