/** JavaScript values as the two stores handle them, and the few operations
    their code performs on them: truthiness (`!x`, `a && b`, `a || b`),
    `Array.isArray`, and reading a named property, which throws a
    `TypeError` on `null` and `undefined`. */
module Js {

  /** A JavaScript value. Numbers are modelled as integers. */
  datatype Value =
    | Undefined
    | Null
    | Bool(b: bool)
    | Num(n: int)
    | Str(s: string)
    | Arr(elems: seq<Value>)
    | Obj(props: map<string, Value>)

  /** JavaScript truthiness: `undefined`, `null`, `false`, `0` and `""` are
      falsy; every other value, every array and every object included, is truthy. */
  predicate Truthy(v: Value) {
    match v
    case Undefined => false
    case Null => false
    case Bool(b) => b
    case Num(n) => n != 0
    case Str(s) => s != ""
    case Arr(_) => true
    case Obj(_) => true
  }

  /** The two values whose property reads throw. */
  predicate Nullish(v: Value) {
    v.Undefined? || v.Null?
  }

  /** `Array.isArray(v)`. */
  predicate IsArray(v: Value) {
    v.Arr?
  }

  /** `v[key]` for a value that is neither `null` nor `undefined`: an own
      property of an object, the `length` of an array or a string, and
      `undefined` for anything else. Index keys of arrays and inherited
      members are not modelled; the stores read neither. A string's length
      here counts code points, where JavaScript counts UTF-16 code units. */
  function Prop(v: Value, key: string): Value
    requires !Nullish(v)
  {
    if v.Obj? then (if key in v.props then v.props[key] else Undefined)
    else if v.Arr? && key == "length" then Num(|v.elems|)
    else if v.Str? && key == "length" then Num(|v.s|)
    else Undefined
  }

  /** `query[key]` on a plain object held as a map: `undefined` when absent. */
  function Member(m: map<string, Value>, key: string): (r: Value)
    ensures key !in m ==> r == Undefined
    ensures key in m ==> r == m[key]
  {
    Prop(Obj(m), key)
  }

  /** The result of evaluating a property read: a value, or a thrown `TypeError`. */
  datatype Read = Got(value: Value) | TypeError

  /** `v.key` as an expression that may throw. */
  function Get(v: Value, key: string): (r: Read)
    ensures r.TypeError? <==> Nullish(v)
    ensures r.Got? ==> r.value == Prop(v, key)
  {
    if Nullish(v) then TypeError else Got(Prop(v, key))
  }

  /** The settled result of one awaited `axios.get`: resolved with the
      response body (`response.data`), or rejected. Which one happens is an
      input of the model; the transport itself is not modelled. */
  datatype Outcome = Ok(payload: Value) | Fail
}
