/**
 The slice of JavaScript's value semantics that the dashboard chart component
 relies on: truthiness for `||`, `String(...)`, indexing past the end of an
 array, and reading a property of a row. The `&&` guards on `data.labels`,
 `data.datasets` and `data.datasets[0]` are modelled by the input's optional
 fields and a non-empty `datasets`, not by truthiness.
 */
module JsValues {

  datatype Option<+T> = None | Some(value: T)

  /** The outcome of an expression that may throw a `TypeError`. */
  datatype Result<+T> = Ok(value: T) | Throws(error: string)

  /** A JavaScript value as far as the component inspects it. Numbers are integers. */
  datatype JsValue =
    | Undefined
    | Null
    | Bool(b: bool)
    | Num(n: int)
    | Str(s: string)
    | Arr(items: seq<JsValue>)
    | Obj(fields: map<string, JsValue>)

  /** JavaScript truthiness: `undefined`, `null`, `false`, `0` and `""` are falsy. */
  predicate Truthy(v: JsValue) {
    match v
    case Undefined => false
    case Null => false
    case Bool(b) => b
    case Num(n) => n != 0
    case Str(s) => s != ""
    case Arr(_) => true
    case Obj(_) => true
  }

  /** `a || b`: the left operand when it is truthy, otherwise the right one. */
  function Or(a: JsValue, b: JsValue): JsValue {
    if Truthy(a) then a else b
  }

  predicate Nullish(v: JsValue) {
    v.Undefined? || v.Null?
  }

  /** `xs[i]`: reading past the end of an array gives `undefined`. */
  function At(xs: seq<JsValue>, i: nat): JsValue {
    if i < |xs| then xs[i] else Undefined
  }

  function Digit(d: nat): char
    requires d < 10
  {
    "0123456789"[d]
  }

  /** The decimal numeral of `n`, without leading zeros. */
  function Decimal(n: nat): string
    decreases n
  {
    if n < 10 then [Digit(n)] else Decimal(n / 10) + [Digit(n % 10)]
  }

  function Join(parts: seq<string>, sep: string): string
    decreases |parts|
  {
    if parts == [] then ""
    else if |parts| == 1 then parts[0]
    else parts[0] + sep + Join(parts[1..], sep)
  }

  /**
   `String(v)`: arrays join their elements with commas (null and undefined
   elements become empty), every object prints as `[object Object]`.
   */
  function ToString(v: JsValue): string
    decreases v
  {
    match v
    case Undefined => "undefined"
    case Null => "null"
    case Bool(b) => if b then "true" else "false"
    case Num(n) => if n < 0 then "-" + Decimal(-n) else Decimal(n)
    case Str(s) => s
    case Arr(items) =>
      Join(seq(|items|, i requires 0 <= i < |items| =>
        if Nullish(items[i]) then "" else ToString(items[i])), ",")
    case Obj(_) => "[object Object]"
  }

  /**
   `v[key]` for a string key: an object's own entry, or `undefined` when it has
   none; reading any property of `null` or `undefined` throws.
   */
  function Get(v: JsValue, key: string): Result<JsValue> {
    match v
    case Undefined => Throws("TypeError: Cannot read properties of undefined")
    case Null => Throws("TypeError: Cannot read properties of null")
    case Obj(m) => Ok(if key in m then m[key] else Undefined)
    case _ => Ok(Undefined)
  }
}
