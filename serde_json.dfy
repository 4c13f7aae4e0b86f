/** The shape of a JSON document, as `serde_json::Value` holds it. */
module SerdeJson {

  /** An object is a map from member names to values: member names are
      unique and their order is not part of the value. Numbers are kept as
      integers, which is all this model needs. */
  datatype Value =
    | Null
    | Bool(b: bool)
    | Number(n: int)
    | String(s: string)
    | Array(items: seq<Value>)
    | Object(fields: map<string, Value>)
}
