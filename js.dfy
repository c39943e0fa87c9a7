/** JavaScript values as the repository layer sees them: parsed JSON from the
    transport, plus `undefined` for an argument that was not given or a
    property that is absent. Numbers are integers. */
module Js {

  datatype Option<+T> = None | Some(value: T)

  datatype Value =
    | Undefined
    | Null
    | Bool(b: bool)
    | Num(n: int)
    | Str(s: string)
    | Arr(items: seq<Value>)
    | Obj(fields: map<string, Value>)

  /** JavaScript truthiness: `undefined`, `null`, `false`, `0` and `""` are
      falsy; every array and every object (even an empty one) is truthy. */
  predicate Truthy(v: Value) {
    match v
    case Undefined => false
    case Null => false
    case Bool(b) => b
    case Num(n) => n != 0
    case Str(s) => s != ""
    case Arr(_) => true
    case Obj(_) => true
  }

  /** An optional string as a JavaScript value: a missing one is `undefined`. */
  function OptionalStr(o: Option<string>): (v: Value)
    ensures v.Undefined? <==> o.None?
    ensures o.Some? ==> v == Str(o.value)
  {
    match o
    case None => Undefined
    case Some(s) => Str(s)
  }

  /** Why a promise was rejected: the transport failed (network, auth, rate
      limit, HTTP error), or the code read a property of `null`/`undefined`
      or wrote one on a primitive. */
  datatype Failure = TransportFailure | TypeError

  /** The settled state of a promise. */
  datatype Outcome<+T> = Ok(value: T) | Rejected(reason: Failure)

  /** `v.key`: reading a property of `null` or `undefined` throws a TypeError;
      an object yields its field, or `undefined` when it has none; arrays and
      primitives have no named properties in this model. */
  function Property(v: Value, key: string): (r: Outcome<Value>)
    ensures r.Rejected? <==> v.Undefined? || v.Null?
    ensures r.Rejected? ==> r.reason == TypeError
    ensures r.Ok? && v.Obj? && key in v.fields ==> r.value == v.fields[key]
    ensures r.Ok? && !(v.Obj? && key in v.fields) ==> r.value == Undefined
  {
    match v
    case Undefined => Rejected(TypeError)
    case Null => Rejected(TypeError)
    case Obj(fields) => if key in fields then Ok(fields[key]) else Ok(Undefined)
    case _ => Ok(Undefined)
  }
}
