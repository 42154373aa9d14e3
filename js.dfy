/**
 * JavaScript values as the API layer and the validators see them.
 *
 * A JavaScript object is a map from keys to values; a key that is absent and
 * a key that holds `undefined` are the same thing here, so a well-formed
 * object never stores `Undefined` (see `Defined`).  Numbers are integers
 * (amounts in cents, dates as millisecond timestamps).
 */
module Js {

  datatype Option<T> = None | Some(value: T)

  /** The error paths of the API functions (each one a JavaScript `throw`). */
  datatype Error =
    | OrganizationRequired
    | IdAndOrganizationRequired

  datatype Result<T> = Ok(value: T) | Err(error: Error)

  datatype Value =
    | Undefined
    | Null
    | Bool(b: bool)
    | Num(n: int)
    | Str(s: string)
    | Date(time: int)                    // a valid `Date`, by its timestamp
    | Arr(items: seq<Value>)
    | Obj(fields: map<string, Value>)

  type Object = map<string, Value>

  /** JavaScript truthiness: `undefined`, `null`, `false`, `0` and `''` are falsy. */
  predicate Truthy(v: Value) {
    match v
    case Undefined => false
    case Null => false
    case Bool(b) => b
    case Num(n) => n != 0
    case Str(s) => s != ""
    case _ => true
  }

  /** A string is truthy exactly when it is not empty. */
  predicate NonEmpty(s: string) {
    s != ""
  }

  /** An optional string is truthy when it is present and not empty. */
  predicate TruthyText(o: Option<string>) {
    o.Some? && o.value != ""
  }

  /** `o[k]` */
  function Get(o: Object, k: string): (v: Value)
    ensures k !in o ==> v == Undefined
    ensures k in o ==> v == o[k]
  {
    if k in o then o[k] else Undefined
  }

  /** `o[k] = v`, where assigning `undefined` leaves the key absent. */
  function Put(o: Object, k: string, v: Value): (r: Object)
    ensures Get(r, k) == v
    ensures forall j :: j != k ==> Get(r, j) == Get(o, j)
    ensures r.Keys <= o.Keys + {k}
  {
    if v == Undefined then o - {k} else o[k := v]
  }

  /** No key of `o` holds `undefined`. */
  predicate Defined(o: Object) {
    forall k :: k in o ==> o[k] != Undefined
  }
}
