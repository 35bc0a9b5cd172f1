/**
 * JSON-like values: the Python dicts and lists sent to Elasticsearch as mappings
 * and analysis settings, and the responses read back from it.
 */
module Json {
  import opened Wrappers

  datatype Value =
    | Null
    | Bool(b: bool)
    | Int(i: int)
    | Str(s: string)
    | Array(items: seq<Value>)
    | Object(fields: map<string, Value>)

  /** `value[key]` on a dict; None where Python would raise (not a dict, or no such key). */
  function Get(v: Value, key: string): Option<Value> {
    if v.Object? && key in v.fields then Some(v.fields[key]) else None
  }

  /** `value[k1][k2]...`: successive lookups, None as soon as one fails. */
  function GetPath(v: Value, path: seq<string>): Option<Value>
    decreases |path|
  {
    if path == [] then Some(v)
    else
      match Get(v, path[0])
      case None => None
      case Some(w) => GetPath(w, path[1..])
  }
}
