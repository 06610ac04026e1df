/**
 * Values produced by JSON.parse. Numbers are split into integer-valued ones,
 * which the schemas' "integer" type accepts, and all others; no floating-point
 * arithmetic is modelled.
 */
module Json {

  datatype Json =
    | JNull
    | JBool(b: bool)
    | JInt(i: int)
    | JNonInt
    | JStr(s: string)
    | JArr(items: seq<Json>)
    | JObj(fields: map<string, Json>)

  /** JavaScript truthiness of a parsed value (a non-integer number is never 0). */
  predicate Truthy(j: Json) {
    match j
    case JNull => false
    case JBool(b) => b
    case JInt(i) => i != 0
    case JNonInt => true
    case JStr(s) => s != ""
    case JArr(_) => true
    case JObj(_) => true
  }

  /** An array all of whose items are strings. */
  predicate IsStringArray(j: Json) {
    j.JArr? && forall k :: 0 <= k < |j.items| ==> j.items[k].JStr?
  }

  /** The strings held by an array of strings, in order. */
  function Strings(j: Json): (r: seq<string>)
    requires IsStringArray(j)
    ensures |r| == |j.items|
    ensures forall k :: 0 <= k < |r| ==> j.items[k] == JStr(r[k])
  {
    seq(|j.items|, k requires 0 <= k < |j.items| => j.items[k].s)
  }

  /** The array of strings holding `xs`, the inverse of Strings. */
  function StringArray(xs: seq<string>): (r: Json)
    ensures IsStringArray(r) && Strings(r) == xs
  {
    JArr(seq(|xs|, k requires 0 <= k < |xs| => JStr(xs[k])))
  }

  /** `obj[key]` when `obj` is an object that has `key`. */
  predicate Has(j: Json, key: string) {
    j.JObj? && key in j.fields
  }
}
