/** JSON values as the request body decoder produces them and as the response serialiser consumes them. */
module Json {

  /** A decoded JSON value. Numbers are exact; JavaScript's double rounding is not modelled.
      An object is a map from property names to values, so the order of its keys is not kept. */
  datatype Json =
    | JNull
    | JBool(b: bool)
    | JNumber(n: real)
    | JString(s: string)
    | JArray(elems: seq<Json>)
    | JObject(props: map<string, Json>)

  /** True of the values on which JavaScript can create a property: objects and arrays.
      Under strict mode, assigning a property to any other value throws a TypeError. */
  predicate AcceptsProperties(v: Json)
  {
    v.JObject? || v.JArray?
  }
}
