/** JSON values as Python's `json` module produces them, and the dictionary
    `.get` lookups the reshaping code applies to them. Number and string
    contents are kept abstract: text parsing and serialisation are parameters
    of the functions that need them. */
module Json {
  import opened Wrappers

  datatype Json =
    | JNull
    | JBool(b: bool)
    | JInt(i: int)
    | JFloat(f: real)
    | JStr(s: string)
    | JArr(items: seq<Json>)
    | JObj(fields: map<string, Json>)

  /** The empty object `{}`. */
  const EmptyObj: Json := JObj(map[])

  /** Exceptions the reshaping code can raise on a parsed document. */
  datatype ShapeError =
    /** `.get` called on something that is not a dict (AttributeError). */
    | NoGetMethod(onValue: Json)
    /** `json.loads` of a string document failed (JSONDecodeError). */
    | StringDocumentUndecodable(text: string)

  /** Python's `value.get(key, default)`: only a dict has `.get`. */
  function Get(value: Json, key: string, default: Json): (r: Result<Json, ShapeError>)
    ensures r.Failure? <==> !value.JObj?
    ensures r.Failure? ==> r.error == NoGetMethod(value)
    ensures value.JObj? && key in value.fields ==> r == Success(value.fields[key])
    ensures value.JObj? && key !in value.fields ==> r == Success(default)
  {
    match value
    case JObj(fields) => if key in fields then Success(fields[key]) else Success(default)
    case _ => Failure(NoGetMethod(value))
  }
}
