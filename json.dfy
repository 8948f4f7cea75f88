/**
 * The values `json.loads` produces and `json.dumps` consumes.
 * Numbers keep Python's distinction between `int` and `float`; a float is an exact real.
 */
module JsonModel {

  datatype Json =
    | JNull
    | JBool(b: bool)
    | JInt(i: int)
    | JFloat(f: real)
    | JString(s: string)
    | JArray(items: seq<Json>)
    | JObject(members: map<string, Json>)

  /** `d.get(key, default)` on a decoded JSON object. */
  function Get(members: map<string, Json>, key: string, default: Json): (v: Json)
    ensures key in members ==> v == members[key]
    ensures key !in members ==> v == default
  {
    if key in members then members[key] else default
  }
}
