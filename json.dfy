/**
 * JSON values as the services see them after `json.loads`, the other Python
 * values a query result can hold, Python's truthiness on them, and the JSON
 * codec as a pair of functions supplied by the caller (the `json` module
 * itself is not part of this model).
 */
module Json {
  import opened Base
  import opened Dicts

  datatype Json =
    | JNull
    | JBool(b: bool)
    | JNum(n: int)
    | JReal(r: real)
    | JStr(s: string)
    | JArr(items: seq<Json>)
    | JObj(fields: Dict<Json>)
      /** A value plain `json.dumps` refuses (a `Decimal`, `date` or `datetime` cell): its `str()` and its truthiness. */
    | JNative(text: string, truthy: bool)

  /** Python's `bool(v)` for a decoded JSON value. */
  predicate Truthy(v: Json) {
    match v
    case JNull => false
    case JBool(b) => b
    case JNum(n) => n != 0
    case JReal(r) => r != 0.0
    case JStr(s) => s != ""
    case JArr(items) => items != []
    case JObj(fields) => fields != []
    case JNative(_, t) => t
  }

  /** `json.dumps(v)` without `default=` succeeds: no native value anywhere inside. */
  predicate Serializable(v: Json)
    decreases v
  {
    match v
    case JNative(_, _) => false
    case JArr(items) => forall i :: 0 <= i < |items| ==> Serializable(items[i])
    case JObj(fields) => forall i :: 0 <= i < |fields| ==> Serializable(fields[i].1)
    case _ => true
  }

  /**
   * `json.dumps` and `json.loads`; `loads` answers `None` where Python
   * raises. `dumps` is only applied to serializable values.
   */
  datatype Codec = Codec(dumps: Json -> string, loads: string -> Option<Json>)

  /** A codec whose `loads` reads back what its `dumps` wrote and whose output is never "", as Python's is. */
  ghost predicate RoundTrips(codec: Codec) {
    forall v :: Serializable(v) ==> codec.dumps(v) != "" && codec.loads(codec.dumps(v)) == Some(v)
  }

  /** `d.get(k)` on a JSON object, `None` for a missing key. */
  function Field(d: Dict<Json>, k: string): Json {
    Get(d, k).GetOr(JNull)
  }
}
