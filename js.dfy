/** JavaScript values as the program receives them from the network and from
    browser storage, with the truthiness rule that its `if (x)` and `x || y`
    tests use. */
module Js {
  import opened Wrappers

  /** A value: what `JSON.parse` can produce, plus `undefined`. Numbers are
      real numbers (NaN and the infinities are not modelled). */
  datatype Value =
    | Undefined
    | Null
    | Bool(b: bool)
    | Num(n: real)
    | Str(s: string)
    | Arr(items: seq<Value>)
    | Obj(fields: map<string, Value>)

  /** JavaScript truthiness: `undefined`, `null`, `false`, `0` and `""` are
      falsy; every other value, every array and object included, is truthy. */
  predicate Truthy(v: Value) {
    match v
    case Undefined => false
    case Null => false
    case Bool(b) => b
    case Num(n) => n != 0.0
    case Str(s) => s != ""
    case Arr(_) => true
    case Obj(_) => true
  }

  /** `v.key`. Reading a property of `null` or `undefined` throws a TypeError,
      shown as None; a property an object lacks, and any named property of a
      number, string, boolean or array other than their built-ins, reads as
      `undefined`. */
  function Get(v: Value, key: string): (r: Option<Value>)
    ensures r.None? <==> v.Undefined? || v.Null?
    ensures v.Obj? && key in v.fields ==> r == Some(v.fields[key])
  {
    match v
    case Undefined => None
    case Null => None
    case Obj(fields) => Some(if key in fields then fields[key] else Undefined)
    case _ => Some(Undefined)
  }

  /** `v?.key`: like Get, but `undefined` instead of a TypeError. */
  function GetOpt(v: Value, key: string): Value {
    match Get(v, key)
    case None => Undefined
    case Some(w) => w
  }

  /** `a || b`. */
  function Or(a: Value, b: Value): (r: Value)
    ensures Truthy(a) ==> r == a
    ensures !Truthy(a) ==> r == b
  {
    if Truthy(a) then a else b
  }

  /** `error.response?.data?.message || fallback`, the message the pages
      show for a failed call: the server's message when the error carries a
      truthy one, else the fallback text. None when reading `response` of the
      error itself fails (a null or undefined error). */
  function ResponseMessage(error: Value, fallback: string): (m: Option<Value>)
    requires fallback != ""
    ensures m.None? <==> error.Undefined? || error.Null?
    ensures m.Some? ==> Truthy(m.value)
    ensures m.Some? && Truthy(GetOpt(GetOpt(GetOpt(error, "response"), "data"), "message")) ==>
              m.value == GetOpt(GetOpt(GetOpt(error, "response"), "data"), "message")
    ensures m.Some? && !Truthy(GetOpt(GetOpt(GetOpt(error, "response"), "data"), "message")) ==>
              m.value == Str(fallback)
  {
    match Get(error, "response")
    case None => None
    case Some(response) => Some(Or(GetOpt(GetOpt(response, "data"), "message"), Str(fallback)))
  }

  /** An object with a single `message` field, the shape of the fixed error
      values the program builds. */
  function MessageObject(message: string): Value {
    Obj(map["message" := Str(message)])
  }

  /** `JSON.parse`, `JSON.stringify` and `Number.prototype.toString` are
      library code outside this model; they are passed in. */
  datatype Codec = Codec(
    parse: string -> Option<Value>,
    stringify: Value -> string,
    numberText: real -> string)
}
