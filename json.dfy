/** Decoded JSON values, the input every classifier of the JSON-RPC layer receives. */
module JsonValue {

  /** A JSON value. A number is kept as its literal text, an opaque tag: no
      classifier ever does arithmetic on it, it only asks whether a value IS a
      number. An object maps each member name to its value. */
  datatype Json =
    | Null
    | Bool(b: bool)
    | Number(literal: string)
    | String(s: string)
    | Array(elements: seq<Json>)
    | Object(members: map<string, Json>)
}
