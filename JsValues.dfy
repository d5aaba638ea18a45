/**
  * The slice of JavaScript's value model that the portfolio's record
  * handling depends on: the kinds of value a property can hold, the
  * truthiness rule used by `&&`, `||` and `!!`, and property lookup on a
  * plain object (a missing key reads as `undefined`).
  */
module JsValues {

  datatype Option<+T> = None | Some(value: T)

  /** A JavaScript value. Numbers are exact reals: NaN and the infinities
      never arise from the record transforms modelled with this type. */
  datatype JsValue =
    | Undefined
    | Null
    | Bool(b: bool)
    | Number(n: real)
    | Str(s: string)
    | Array(elems: seq<JsValue>)
    | Object(fields: map<string, JsValue>)

  /** A plain object literal such as `{ title: ..., year: ... }`. */
  type JsRecord = map<string, JsValue>

  /** ECMAScript ToBoolean: `undefined`, `null`, `false`, `0` and `""` are
      falsy; every array and every object is truthy, even an empty one. */
  predicate Truthy(v: JsValue)
  {
    match v
    case Undefined => false
    case Null => false
    case Bool(b) => b
    case Number(n) => n != 0.0
    case Str(s) => s != ""
    case Array(_) => true
    case Object(_) => true
  }

  /** `obj.key` on a plain object: an absent key reads as `undefined`. */
  function Get(obj: JsRecord, key: string): (v: JsValue)
    ensures key !in obj ==> v == Undefined
    ensures key in obj ==> v == obj[key]
  {
    if key in obj then obj[key] else Undefined
  }

  /** `a || b`: the first operand when it is truthy, otherwise the second. */
  function Or(a: JsValue, b: JsValue): (r: JsValue)
    ensures Truthy(a) ==> r == a
    ensures !Truthy(a) ==> r == b
  {
    if Truthy(a) then a else b
  }

  /** A string array as a JavaScript value. */
  function StrArray(xs: seq<string>): (v: JsValue)
    ensures v.Array? && |v.elems| == |xs|
    ensures forall i :: 0 <= i < |xs| ==> v.elems[i] == Str(xs[i])
  {
    Array(seq(|xs|, i requires 0 <= i < |xs| => Str(xs[i])))
  }
}
