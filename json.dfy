/**
 * JSON documents at the level of decoded values. Byte-level quoting,
 * escaping and whitespace belong to encoding/json and are not modelled.
 */
module Json {
  import opened Wrappers
  import opened Errors

  datatype Json =
    | JNull
    | JNumber(n: int)
    | JString(s: string)
    | JArray(items: seq<Json>)
    | JObject(members: seq<(string, Json)>)

  /** A byte slice handed to the decoder, seen after parsing: a document, or not JSON at all. */
  datatype Text = Parsed(doc: Json) | Malformed

  const SyntaxError: Error := Other("json: invalid character")
  const StringTypeError: Error := Other("json: cannot unmarshal into Go value of type string")

  /**
   * json.Unmarshal(b, &s) for a string s that starts empty: a JSON string
   * is taken, null leaves s as it is, any other document is a type error.
   */
  function UnmarshalString(t: Text): Result<string, Error>
  {
    match t
    case Malformed => Failure(SyntaxError)
    case Parsed(JString(s)) => Success(s)
    case Parsed(JNull) => Success("")
    case Parsed(_) => Failure(StringTypeError)
  }
}
