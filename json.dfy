/** Decoded JSON documents, as the HTTP client hands them to the integration. */
module JsonValues {

  /** JNull plays the part of Python's None; JInt and JReal keep JSON's int/float distinction. */
  datatype Json =
    | JNull
    | JBool(b: bool)
    | JInt(i: int)
    | JReal(r: real)
    | JStr(s: string)
    | JArr(items: seq<Json>)
    | JObj(fields: map<string, Json>)

  /** Python truthiness of the decoded value: None, False, 0, 0.0, "", [] and {} are false. */
  predicate Truthy(j: Json)
    ensures !Truthy(j) <==>
      j == JNull || j == JBool(false) || j == JInt(0) || j == JReal(0.0) ||
      j == JStr("") || j == JArr([]) || j == JObj(map[])
  {
    match j
    case JNull => false
    case JBool(b) => b
    case JInt(i) => i != 0
    case JReal(r) => r != 0.0
    case JStr(s) => |s| > 0
    case JArr(items) => |items| > 0
    case JObj(fields) => |fields| > 0
  }

  /** A value on which `response.get(...)` succeeds and which passes `if not response: return`. */
  predicate IsNonEmptyObject(j: Json) {
    j.JObj? && |j.fields| > 0
  }
}
