/**
 * The JavaScript values the frontend passes around (response bodies, Redux payloads, thunk
 * arguments), with the language's truthiness, its string conversion and property access.
 * Numbers are integral here.
 */
module Js {
  import opened Wrappers
  import opened Text

  datatype Value =
    | Undefined
    | Null
    | Bool(b: bool)
    | Num(n: int)
    | Str(s: string)
    | Obj(fields: map<string, Value>)

  /** JavaScript truthiness: `undefined`, `null`, `false`, `0` and `''` are falsy, objects are truthy. */
  predicate Truthy(v: Value) {
    match v
    case Undefined => false
    case Null => false
    case Bool(b) => b
    case Num(n) => n != 0
    case Str(s) => s != ""
    case Obj(_) => true
  }

  /** `a || b`: the first operand when it is truthy, otherwise the second. */
  function Or(a: Value, b: Value): (r: Value)
    ensures Truthy(a) ==> r == a
    ensures !Truthy(a) ==> r == b
  {
    if Truthy(a) then a else b
  }

  /** `String(v)`, which is also what a template literal and `localStorage.setItem` store. */
  function ToString(v: Value): string {
    match v
    case Undefined => "undefined"
    case Null => "null"
    case Bool(b) => if b then "true" else "false"
    case Num(n) => IntToString(n)
    case Str(s) => s
    case Obj(_) => "[object Object]"
  }

  /**
   * `v.key`: `None` stands for the TypeError raised when `v` is `undefined` or `null`;
   * a missing key, or any key of a primitive, reads as `undefined`.
   */
  function Member(v: Value, key: string): (r: Option<Value>)
    ensures r.None? <==> v.Undefined? || v.Null?
    ensures v.Obj? && key in v.fields ==> r == Some(v.fields[key])
  {
    match v
    case Undefined => None
    case Null => None
    case Obj(f) => Some(if key in f then f[key] else Undefined)
    case _ => Some(Undefined)
  }

  /** Reading a property that an object does not have gives `undefined`, never an error. */
  lemma MissingMemberIsUndefined(f: map<string, Value>, key: string)
    requires key !in f
    ensures Member(Obj(f), key) == Some(Undefined)
  {
  }
}
