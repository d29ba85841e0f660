/**
 * An opaque JSON value, standing for serde_json::Value. Objects are maps from
 * keys to values, as serde_json's Map is; numbers are kept integral.
 */
module Json {

  import opened Wrappers

  datatype Json =
    | JNull
    | JBool(b: bool)
    | JNumber(n: int)
    | JString(s: string)
    | JArray(items: seq<Json>)
    | JObject(fields: map<string, Json>)

  /** The string stored under `key` of an object, if there is one. */
  function StringField(j: Json, key: string): (r: Option<string>)
    ensures r.Some? <==> j.JObject? && key in j.fields && j.fields[key].JString?
    ensures r.Some? ==> j.fields[key] == JString(r.value)
  {
    if j.JObject? && key in j.fields && j.fields[key].JString? then Some(j.fields[key].s) else None
  }

  /** The boolean stored under `key` of an object, if there is one. */
  function BoolField(j: Json, key: string): (r: Option<bool>)
    ensures r.Some? <==> j.JObject? && key in j.fields && j.fields[key].JBool?
    ensures r.Some? ==> j.fields[key] == JBool(r.value)
  {
    if j.JObject? && key in j.fields && j.fields[key].JBool? then Some(j.fields[key].b) else None
  }
}
