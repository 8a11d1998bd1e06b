/** The JSON-shaped Python values that the vector-database client hands back,
    and the two Python operations the retriever applies to them: truth testing
    (`not v`) and subscripting with a string key (`v[key]`). */
module PyJson {
  import opened Wrappers

  datatype Json =
    | JNull
    | JBool(b: bool)
    | JNumber(n: real)
    | JString(s: string)
    | JArray(items: seq<Json>)
    | JObject(fields: map<string, Json>)

  /** Python's `bool(v)`: None, False, zero and empty containers are false. */
  predicate Truthy(v: Json) {
    match v
    case JNull => false
    case JBool(b) => b
    case JNumber(n) => n != 0.0
    case JString(s) => s != ""
    case JArray(items) => items != []
    case JObject(fields) => fields != map[]
  }

  /** The exceptions Python raises when a subscript does not fit the value. */
  datatype PyError = KeyError(key: string) | TypeError

  /** Python's `v[key]`: a dict missing the key raises KeyError; a value that
      is not a dict (None, a number, a string or a list indexed by a string)
      raises TypeError. */
  function Subscript(v: Json, key: string): Result<Json, PyError> {
    match v
    case JObject(fields) => if key in fields then Ok(fields[key]) else Err(KeyError(key))
    case _ => Err(TypeError)
  }
}
