/**
 * JSON values as the bridge sees them after decoding: a closed datatype in
 * place of Go's `any`. Numbers are only passed through, so integers stand for
 * them. Objects are maps, as Go's map[string]any is: key order is not part of
 * the value.
 */
module Json {

  datatype Json =
    | JNull
    | JBool(b: bool)
    | JInt(n: int)
    | JString(s: string)
    | JArray(items: seq<Json>)
    | JObject(fields: map<string, Json>)

  /** `m[key]` on a Go map[string]any: the value, or nil when the key is absent. */
  function Get(m: map<string, Json>, key: string): Json {
    if key in m then m[key] else JNull
  }

  /** `s, _ := v.(string)`: the string, or "" when `v` is not a string. */
  function StringOr(v: Json): string {
    if v.JString? then v.s else ""
  }
}
