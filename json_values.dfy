/**
 * JavaScript values as they travel between the admin pages, the HTTP
 * handlers and the database file: JSON values, `undefined` (an absent key),
 * and the truthiness test that every `!x` and `x || default` relies on.
 */
module JsValues {

  datatype Option<+T> = None | Some(value: T)

  /** A JSON value. Numbers are modelled as integers. */
  datatype Json =
    | JNull
    | JBool(b: bool)
    | JNum(n: int)
    | JStr(s: string)
    | JArr(items: seq<Json>)
    | JObj(fields: map<string, Json>)

  /** A JSON object: a request body or a stored record. An absent key reads as `undefined`. */
  type Fields = map<string, Json>

  /** The property access `obj.key`; `None` stands for `undefined`. */
  function Field(obj: Fields, key: string): Option<Json> {
    if key in obj then Some(obj[key]) else None
  }

  /** JavaScript truthiness of a value that may be `undefined`. */
  predicate Truthy(v: Option<Json>) {
    match v
    case None => false
    case Some(JNull) => false
    case Some(JBool(b)) => b
    case Some(JNum(n)) => n != 0
    case Some(JStr(s)) => s != ""
    case Some(JArr(_)) => true
    case Some(JObj(_)) => true
  }

  /** `a || b` where `b` is a JSON value. */
  function OrElse(a: Option<Json>, b: Json): Json {
    if Truthy(a) then a.value else b
  }

  /**
   * An object literal entry `key: v` once serialised: JSON drops keys whose
   * value is `undefined`, so `None` leaves the key out.
   */
  function With(obj: Fields, key: string, v: Option<Json>): (r: Fields)
    ensures Field(r, key) == v
    ensures forall k :: k != key ==> Field(r, k) == Field(obj, k)
    ensures r.Keys == if v.Some? then obj.Keys + {key} else obj.Keys - {key}
  {
    match v
    case Some(x) => obj[key := x]
    case None => obj - {key}
  }

  /** The response body `{ error: msg }`. */
  function ErrorBody(msg: string): Json {
    JObj(map["error" := JStr(msg)])
  }

  /** `String(n)` for a non-negative integer: its decimal digits. */
  function NatToString(n: nat): (r: string)
    ensures |r| >= 1
    ensures forall i :: 0 <= i < |r| ==> '0' <= r[i] <= '9'
  {
    if n < 10 then [(n as int + '0' as int) as char]
    else NatToString(n / 10) + NatToString(n % 10)
  }
}
