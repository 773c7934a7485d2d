/** A decoded JSON request body, as Python's `json` module hands it over:
    `null`, booleans, integers and floats (kept apart, as Python keeps `int`
    and `float` apart), strings, lists and dictionaries. */
module JsonValue {

  datatype Json =
    | JNull
    | JBool(b: bool)
    | JInt(i: int)
    | JFloat(f: real)
    | JString(s: string)
    | JArray(items: seq<Json>)
    | JObject(fields: map<string, Json>)

  /** The name Python reports for the type of the decoded value. */
  function TypeName(v: Json): (name: string)
    ensures name == "NoneType" <==> v.JNull?
    ensures name == "list" <==> v.JArray?
    ensures name == "dict" <==> v.JObject?
  {
    match v
    case JNull => "NoneType"
    case JBool(_) => "bool"
    case JInt(_) => "int"
    case JFloat(_) => "float"
    case JString(_) => "str"
    case JArray(_) => "list"
    case JObject(_) => "dict"
  }
}
