/**
 * Decoded JSON as the Ruby client sees it: nil, booleans, Integers, Floats,
 * Strings, Arrays and Hashes with string keys, together with Ruby's notion of
 * truthiness and the `to_s` that string interpolation applies to a value.
 */
module JsonData {
  import Text

  datatype Option<+T> = None | Some(value: T)

  datatype Json =
    | JNull
    | JBool(b: bool)
    | JInt(i: int)
    | JReal(r: real)          // a JSON number that decodes to a Ruby Float
    | JString(s: string)
    | JArray(items: seq<Json>)
    | JObject(fields: map<string, Json>)

  /** Ruby truthiness: everything except nil and false counts as true. */
  predicate Truthy(j: Json) {
    !j.JNull? && !(j.JBool? && !j.b)
  }

  /** Hash#[]: the value under `key`, or nil when the key is absent. */
  function Get(fields: map<string, Json>, key: string): (r: Json)
    ensures key !in fields ==> r == JNull
    ensures key in fields ==> r == fields[key]
  {
    if key in fields then fields[key] else JNull
  }

  /**
   * Object#to_s as string interpolation uses it. Arrays, Hashes and Floats are
   * rendered by their `inspect`, which is Ruby's own code and is passed in.
   */
  function ToS(j: Json, inspect: Json -> string): (s: string)
  {
    match j
    case JNull => ""
    case JBool(b) => if b then "true" else "false"
    case JInt(i) => Text.IntText(i)
    case JString(t) => t
    case _ => inspect(j)
  }
}
