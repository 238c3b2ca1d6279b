/** Decoded JSON values, as the two clients receive them from their JSON decoders.
    Non-integer numbers keep only their literal text: floating point is not modelled. */
module Json {

  datatype JsonValue =
    | JNull
    | JBool(b: bool)
    | JInt(i: int)
    | JNumber(literal: string)
    | JString(s: string)
    | JArray(items: seq<JsonValue>)
    | JObject(fields: map<string, JsonValue>)

  /** Python's `d.get(key, default)` on a decoded object: never fails. */
  function Get(fields: map<string, JsonValue>, key: string, default: JsonValue): JsonValue {
    if key in fields then fields[key] else default
  }
}
