/**
 * The values that the application keeps in Python dictionaries: decoded JSON
 * documents, configuration and database rows.  Floating-point numbers are
 * not modelled.
 */
module JsonValues {
  import opened Wrappers

  datatype Json =
    | JNull
    | JBool(b: bool)
    | JInt(i: int)
    | JStr(s: string)
    | JArr(items: seq<Json>)
    | JObj(fields: map<string, Json>)

  /** Python truthiness: `None`, `False`, `0`, `""`, `[]` and `{}` are false. */
  predicate Truthy(j: Json) {
    match j
    case JNull => false
    case JBool(b) => b
    case JInt(i) => i != 0
    case JStr(s) => s != ""
    case JArr(xs) => xs != []
    case JObj(m) => m != map[]
  }

  /**
   * `j.get(key, default)`: `None` when `j` is not a dictionary, because the
   * source then raises `AttributeError`.
   */
  function Get(j: Json, key: string, default: Json): (r: Option<Json>)
    ensures r.Some? <==> j.JObj?
    ensures j.JObj? && key in j.fields ==> r == Some(j.fields[key])
    ensures j.JObj? && key !in j.fields ==> r == Some(default)
  {
    match j
    case JObj(m) => Some(if key in m then m[key] else default)
    case _ => None
  }

  /** Python's `{}`. */
  const EmptyObject: Json := JObj(map[])
}
