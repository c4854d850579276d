// The LitJson JsonData values the Unity tools exchange. A JsonData is an
// object, an array, a string, an int, a long, a double or a boolean, or a
// fresh JsonData whose type was never set (JUntyped); the null reference a
// field or an array element may hold is JNull.
module JsonValues {
  datatype Json =
    | JNull
    | JUntyped
    | JBool(b: bool)
    | JInt(i: int)
    | JLong(l: int)
    | JDouble(d: real)
    | JString(s: string)
    | JArray(items: seq<Json>)
    | JObject(fields: map<string, Json>)

  /** A fresh JsonData whose type was set to Object. */
  const EmptyObject: Json := JObject(map[])

  /** A fresh JsonData whose type was set to Array. */
  const EmptyArray: Json := JArray([])

  /** ContainsKey on an object node; false for every other node. */
  predicate HasKey(j: Json, key: string)
  {
    j.JObject? && key in j.fields
  }
}
