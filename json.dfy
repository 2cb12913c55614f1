/**
 * The untyped document tree produced by the relaxed-JSON (json5) reader,
 * and the two outcomes of running that reader on a text.
 */
module Json {
  /** A JSON value. Object members are keyed by name; a later duplicate key replaces an earlier one. */
  datatype Value =
    | JNull
    | JBool(b: bool)
    | JNumber(n: real)
    | JString(s: string)
    | JArray(items: seq<Value>)
    | JObject(members: map<string, Value>)

  /**
   * What `json5.parse` does with a text: it either yields a tree or throws a
   * `SyntaxError` carrying the reader's diagnostic. The reader itself is not
   * modelled; callers receive it as a function `string -> Json5Result`.
   */
  datatype Json5Result = Ok(doc: Value) | ParseError(message: string)
}
