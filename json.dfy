/** The org.json value tree the transform builds. An object is a map from key to value:
    JSONObject is a hash map, so key order carries no meaning and is not modelled. */
module Json {

  datatype Json =
    | JString(s: string)
    /** A Double produced by Double.parseDouble; it keeps the literal it was parsed from. */
    | JNumber(literal: string)
    /** A boxed Integer (size, from). */
    | JInt(i: int)
    | JArray(items: seq<Json>)
    | JObject(members: map<string, Json>)
}
