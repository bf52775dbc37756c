/**
 * JSON documents as the SDK handles them (org.json's JSONObject and JSONArray),
 * restricted to a closed set of value kinds.
 */
module Json {
  import opened Wrappers

  /** A JSON value. `Date` is a java.util.Date held as milliseconds; numbers are integers. */
  datatype Value =
    | Str(s: string)
    | Num(n: int)
    | Bool(b: bool)
    | Arr(items: seq<Value>)
    | Date(millis: int)
    | Obj(fields: map<string, Value>)
    | Null

  /** A JSONObject: string keys, each present at most once. */
  type Props = map<string, Value>

  /** JSONObject.optLong for the values this model carries: a missing or non-numeric value reads as 0. */
  function OptLong(p: Props, key: string): (r: int)
    ensures key in p && p[key].Num? ==> r == p[key].n
    ensures !(key in p && p[key].Num?) ==> r == 0
  {
    if key in p && p[key].Num? then p[key].n else 0
  }

  /** JSONObject.optJSONObject: the nested object under `key`, if that value is one. */
  function OptObject(p: Props, key: string): (r: Option<Props>)
    ensures r.Some? <==> key in p && p[key].Obj?
    ensures r.Some? ==> r.value == p[key].fields
  {
    if key in p && p[key].Obj? then Some(p[key].fields) else None
  }
}
