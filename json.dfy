/** Decoded JSON values as Python's `json` module hands them to the client
    (`dict`, `list`, `str`, `int`, `bool`, `None`). */
module Json {

  datatype JsonValue =
    | JNull
    | JBool(b: bool)
    | JNumber(n: int)
    | JString(str: string)
    | JArray(items: seq<JsonValue>)
    | JObject(fields: map<string, JsonValue>)

  /** `d.get(key, default)` on a decoded JSON object. */
  function GetOrDefault(fields: map<string, JsonValue>, key: string, default: JsonValue): (v: JsonValue)
    ensures key in fields ==> v == fields[key]
    ensures key !in fields ==> v == default
  {
    if key in fields then fields[key] else default
  }
}
