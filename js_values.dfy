/**
 * JavaScript values as the core sees them: what `JSON.parse` can produce, plus
 * `undefined` for a property that is not there. JavaScript numbers are
 * modelled as integers. `JSON.parse` itself is foreign to the model and is
 * passed around as a `Parser`.
 */
module JsValues {
  import opened JsStrings

  datatype Value =
    | Undefined
    | Null
    | Bool(b: bool)
    | Num(n: int)
    | Str(s: string)
    | Arr(items: seq<Value>)
    | Obj(fields: map<string, Value>)

  /** The outcome of `JSON.parse(text)`: a value, or the SyntaxError it throws. */
  datatype ParseResult = Parsed(value: Value) | SyntaxError(message: string)

  type Parser = string -> ParseResult

  /** JavaScript truthiness (`if (v)`, `!v`, `v || w`). */
  predicate Truthy(v: Value) {
    match v
    case Undefined => false
    case Null => false
    case Bool(b) => b
    case Num(n) => n != 0
    case Str(s) => s != ""
    case Arr(_) => true
    case Obj(_) => true
  }

  /** `a || b` */
  function Or(a: Value, b: Value): (r: Value)
    ensures Truthy(a) ==> r == a
    ensures !Truthy(a) ==> r == b
  {
    if Truthy(a) then a else b
  }

  /** `null` or `undefined`: reading a property of these throws a TypeError. */
  predicate Nullish(v: Value) {
    v.Undefined? || v.Null?
  }

  /** `typeof v === 'object'`, which holds for objects, arrays and `null`. */
  predicate TypeofObject(v: Value) {
    v.Null? || v.Arr? || v.Obj?
  }

  /**
   * The property read `v.key` on a value that is not nullish. Every key the
   * core reads is an own property of a parsed object or absent; none of them
   * names a built-in property of strings or arrays.
   */
  function Get(v: Value, key: string): (r: Value)
    ensures r != Undefined ==> v.Obj? && key in v.fields && r == v.fields[key]
  {
    if v.Obj? && key in v.fields then v.fields[key] else Undefined
  }

  /** `String(v)`, also what a template literal `${v}` inserts. */
  function ToJsString(v: Value): string
    decreases v, if v.Arr? then |v.items| + 1 else 0
  {
    match v
    case Undefined => "undefined"
    case Null => "null"
    case Bool(b) => if b then "true" else "false"
    case Num(n) => IntToString(n)
    case Str(s) => s
    case Obj(_) => "[object Object]"
    case Arr(items) => JoinFrom(v, 0)
  }

  /** `Array.prototype.join(",")` from index `i` on; `null` and `undefined` elements print as "". */
  function JoinFrom(v: Value, i: nat): string
    requires v.Arr? && i <= |v.items|
    decreases v, |v.items| - i
  {
    if i == |v.items| then ""
    else
      var e := v.items[i];
      var piece := if Nullish(e) then "" else ToJsString(e);
      if i + 1 == |v.items| then piece else piece + "," + JoinFrom(v, i + 1)
  }

  /** The result of a tool implementation, or the exception it throws (an unhandled rejection). */
  datatype ToolOutcome = Returned(value: Value) | Threw(message: string)
}
