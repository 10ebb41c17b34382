/**
  An already-decoded JSON document. Both clients hand the response body to a
  JSON library and inspect only the value it produces; the parsing itself is
  not part of this model.
 */
module JsonValues {

  /** A JSON number as the decoder delivers it: an integer literal, or anything else. */
  datatype Num = Int(i: int) | Float(f: real)

  datatype Json =
    | Null
    | Boolean(b: bool)
    | Number(n: Num)
    | String(s: string)
    | List(items: seq<Json>)
    | Object(fields: map<string, Json>)

  /** The key/value tree that a successful call hands back to its caller. */
  type JsonObject = map<string, Json>

  /** What the decoder made of a response body: a value, or a syntax error with its text. */
  datatype Decoded = Parsed(value: Json) | SyntaxError(description: string)

  /** A byte of a request body. */
  type Byte = b: nat | b < 0x100

  /** The error object the service sends for an API failure. */
  function ErrorObject(code: nat, msg: string): JsonObject {
    map["error" := String(msg), "errorCode" := Number(Int(code))]
  }

  /** The numeric value a number stands for. */
  function NumValue(n: Num): real {
    match n
    case Int(i) => i as real
    case Float(f) => f
  }
}
