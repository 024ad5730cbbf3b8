/** Decoded JSON values, as `response.json()` produces them and as the clients build their
    dict literals, together with Python's truthiness and `dict.get` on them. */
module Json {

  /** A JSON value. Numbers are integers (see README, "Left out"). */
  datatype JValue =
    | JNull
    | JBool(b: bool)
    | JInt(i: int)
    | JStr(s: string)
    | JArray(items: seq<JValue>)
    | JObject(fields: map<string, JValue>)

  /** Python truthiness: `None`, `False`, `0`, `""`, `[]` and `{}` are false, all else true. */
  predicate Truthy(v: JValue) {
    match v
    case JNull => false
    case JBool(b) => b
    case JInt(i) => i != 0
    case JStr(s) => |s| > 0
    case JArray(items) => |items| > 0
    case JObject(fields) => |fields| > 0
  }

  /** `d.get(key)` on a dict: the stored value, or `None` when the key is absent. */
  function Get(fields: map<string, JValue>, key: string): JValue {
    if key in fields then fields[key] else JNull
  }

  /** The dict field `key` holds the string `s`. */
  predicate HasStr(v: JValue, key: string, s: string) {
    v.JObject? && key in v.fields && v.fields[key] == JStr(s)
  }
}
