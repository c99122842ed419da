/**
 * The JavaScript values that reach the orchestration core after `JSON.parse`
 * (function-call arguments, assistant text), together with the three language
 * rules the core relies on: truthiness, property access and the string
 * conversion a template literal performs.
 *
 * Numbers are integers here; the decimal rendering of fractions and the
 * exponent notation of very large numbers are not modelled.
 */
module JsValues {
  import opened Wrappers

  datatype JsVal =
    | Undefined
    | Null
    | Bool(b: bool)
    | Num(n: int)
    | Str(s: string)
    | Arr(elems: seq<JsVal>)
    | Obj(fields: map<string, JsVal>)

  /** JavaScript truthiness: `undefined`, `null`, `false`, `0` and `""` are falsy. */
  predicate Truthy(v: JsVal) {
    match v
    case Undefined => false
    case Null => false
    case Bool(b) => b
    case Num(n) => n != 0
    case Str(s) => s != ""
    case Arr(_) => true
    case Obj(_) => true
  }

  /**
   * `v.key`: an own field of an object, `undefined` for a key an object lacks
   * and for any other kind of value, and a TypeError on `null`/`undefined`.
   */
  function Get(v: JsVal, key: string): (r: Result<JsVal>)
    ensures r.Threw? <==> (v.Undefined? || v.Null?)
    ensures r.Ok? && v.Obj? && key in v.fields ==> r.value == v.fields[key]
    ensures r.Ok? && !(v.Obj? && key in v.fields) ==> r.value == Undefined
  {
    match v
    case Undefined => Threw
    case Null => Threw
    case Obj(m) => if key in m then Ok(m[key]) else Ok(Undefined)
    case _ => Ok(Undefined)
  }

  /** `v.key` on a value already known not to be `null`/`undefined`. */
  function Field(v: JsVal, key: string): JsVal
    requires !v.Undefined? && !v.Null?
  {
    Get(v, key).value
  }

  /** `a || b`: the left operand when it is truthy, otherwise the right one. */
  function Or(a: JsVal, b: JsVal): (r: JsVal)
    ensures Truthy(a) ==> r == a
    ensures !Truthy(a) ==> r == b
  {
    if Truthy(a) then a else b
  }

  function DigitChar(d: nat): (c: char)
    requires d < 10
    ensures '0' <= c <= '9'
  {
    "0123456789"[d]
  }

  predicate AllDigits(s: string) {
    forall i :: 0 <= i < |s| ==> '0' <= s[i] <= '9'
  }

  /** Decimal digits of a natural number, most significant first, no leading zero. */
  function NatToDecimal(n: nat): (r: string)
    ensures |r| > 0 && AllDigits(r)
    ensures |r| > 1 ==> r[0] != '0'
    decreases n
  {
    if n < 10 then [DigitChar(n)] else NatToDecimal(n / 10) + [DigitChar(n % 10)]
  }

  function IntToDecimal(n: int): (r: string)
    ensures |r| > 0
    ensures n < 0 <==> r[0] == '-'
  {
    if n < 0 then "-" + NatToDecimal(-n) else NatToDecimal(n)
  }

  /**
   * `String(v)` as a template literal computes it. Arrays join their elements
   * with "," (`null`/`undefined` elements become empty), plain objects
   * render as "[object Object]".
   */
  function ToStr(v: JsVal): string
    decreases v, 1
  {
    match v
    case Undefined => "undefined"
    case Null => "null"
    case Bool(b) => if b then "true" else "false"
    case Num(n) => IntToDecimal(n)
    case Str(s) => s
    case Arr(xs) => Join(xs, ",")
    case Obj(_) => "[object Object]"
  }

  /** How `Array.prototype.join` renders one element. */
  function ElementStr(v: JsVal): (r: string)
    ensures (v.Undefined? || v.Null?) ==> r == ""
    ensures v.Str? ==> r == v.s
    decreases v, 2
  {
    if v.Undefined? || v.Null? then "" else ToStr(v)
  }

  /** `xs.join(sep)`. */
  function Join(xs: seq<JsVal>, sep: string): (r: string)
    ensures |xs| == 0 ==> r == ""
    ensures |xs| == 1 ==> r == ElementStr(xs[0])
    decreases xs
  {
    if |xs| == 0 then ""
    else if |xs| == 1 then ElementStr(xs[0])
    else Join(xs[..|xs| - 1], sep) + sep + ElementStr(xs[|xs| - 1])
  }
}

/** ASCII case folding, the part of `String.prototype.toLowerCase` the language names exercise. */
module TextCase {

  function LowerChar(c: char): (r: char)
    ensures 'A' <= c <= 'Z' ==> 'a' <= r <= 'z'
    ensures !('A' <= c <= 'Z') ==> r == c
  {
    if 'A' <= c <= 'Z' then (c as int + 32) as char else c
  }

  /** `s.toLowerCase()` for ASCII text. */
  function Lower(s: string): (r: string)
    ensures |r| == |s|
    ensures forall i :: 0 <= i < |s| ==> r[i] == LowerChar(s[i])
  {
    seq(|s|, i requires 0 <= i < |s| => LowerChar(s[i]))
  }

  predicate IsLower(s: string) {
    forall i :: 0 <= i < |s| ==> !('A' <= s[i] <= 'Z')
  }

  /** Folding is idempotent, and text without upper-case letters is its own folding. */
  lemma LowerOfLower(s: string)
    ensures Lower(Lower(s)) == Lower(s)
    ensures IsLower(s) ==> Lower(s) == s
  {
  }
}
