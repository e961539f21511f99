/** Decoded JSON values, as PHP's `json_decode(..., true)` hands them to the core. */
module Json {
  import opened Wrappers

  datatype Json =
    | JNull
    | JBool(b: bool)
    | JInt(i: int)
    | JFloat(f: real)
    | JString(s: string)
    | JList(items: seq<Json>)
    | JObject(fields: map<string, Json>)
  {
    /** `is_array()`: both JSON lists and JSON objects decode to PHP arrays. */
    predicate IsArray() {
      JList? || JObject?
    }

    /** `isset($data[key])`: the key is present and its value is not null. */
    predicate IsSet(key: string) {
      JObject? && key in fields && fields[key] != JNull
    }

    /** `$data[key] ?? null`. */
    function Field(key: string): Option<Json> {
      if IsSet(key) then Some(fields[key]) else None
    }
  }

  /** PHP's conversion of a value to bool. */
  predicate Truthy(j: Json) {
    match j
    case JNull => false
    case JBool(b) => b
    case JInt(i) => i != 0
    case JFloat(f) => f != 0.0
    case JString(s) => s != "" && s != "0"
    case JList(items) => |items| > 0
    case JObject(fields) => |fields| > 0
  }
}
