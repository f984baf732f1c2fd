/** Parsed JSON documents: the content of ddir.json and attributes.json. */
module Json {

  /** Numbers are integers here; floating-point JSON numbers are not modelled. */
  datatype Value =
    | Null
    | Bool(b: bool)
    | Number(n: int)
    | String(s: string)
    | Array(items: seq<Value>)
    | Object(fields: map<string, Value>)
}
