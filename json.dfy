/**
 * The JSON-shaped values that the transport hands back (the result of parsing a
 * response body) and that request bodies are built from, together with the
 * field-level decode errors of the SDK.
 */
module JsonValues {

  /** A parsed JSON value; numbers are integers only. Objects are finite maps from key to value. */
  datatype Json =
    | JNull
    | JBool(b: bool)
    | JInt(n: int)
    | JStr(s: string)
    | JArray(items: seq<Json>)
    | JObject(fields: map<string, Json>)

  /** Why a document could not be decoded into a model object. */
  datatype DecodeError =
    | NotAnObject             // the document is not a key-value object
    | MissingField(key: string)
    | TypeMismatch(key: string)
    | Invalid(reason: string) // raised by a decoder of a nested model object
}
