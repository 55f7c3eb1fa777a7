/** JSON values as the Baserow API and the inbound webhook exchange them. */
module Json {
  import opened Wrappers

  /** A JSON value. `JNumber` stands for a JavaScript number that is a safe
      integer (|n| <= 2^53 - 1); other numbers are not modelled. */
  datatype Json =
    | JNull
    | JBool(b: bool)
    | JNumber(n: int)
    | JString(s: string)
    | JArray(items: seq<Json>)
    | JObject(fields: map<string, Json>)

  /** A JSON object: request bodies, response bodies and inbound webhook bodies. */
  type Object = map<string, Json>

  /** `o[key]` in JavaScript: `None` (undefined) when the key is absent. */
  function Get(o: Object, key: string): Option<Json>
  {
    if key in o then Some(o[key]) else None
  }
}
