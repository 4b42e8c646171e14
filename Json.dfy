/** The subset of `serde_json::Value` that the relay builds and reads.
    Objects are keyed maps: serde_json's default `Map` keeps one value per key. */
module Json {
  import opened Wrappers

  datatype Json =
    | Null
    | Bool(b: bool)
    | Number(n: int)
    | Str(s: string)
    | Array(items: seq<Json>)
    | Object(fields: map<string, Json>)

  /** `value.get(key)`: the member `key` of an object, nothing for other values. */
  function Get(v: Json, key: string): (r: Option<Json>)
    ensures r.Some? <==> v.Object? && key in v.fields
    ensures r.Some? ==> r.value == v.fields[key]
  {
    if v.Object? && key in v.fields then Some(v.fields[key]) else None
  }

  /** Chained `get` on object keys: `v.get(path[0]).and_then(|c| c.get(path[1]))` and so on;
      nothing as soon as a value is not an object or lacks the key. */
  function Lookup(v: Json, path: seq<string>): (r: Option<Json>)
    decreases |path|
  {
    if path == [] then Some(v)
    else match Get(v, path[0])
      case None => None
      case Some(child) => Lookup(child, path[1..])
  }

  /** Strings of a `Vec<String>`, as a JSON array of strings. */
  function StrArray(xs: seq<string>): (r: Json)
    ensures r.Array? && |r.items| == |xs|
    ensures forall i :: 0 <= i < |xs| ==> r.items[i] == Str(xs[i])
  {
    Array(seq(|xs|, i requires 0 <= i < |xs| => Str(xs[i])))
  }
}
