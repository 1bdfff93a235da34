/** The shapes in which the service answers and the browser client reads:
    JSON values and the replies of the HTTP handlers. */
module Http {

  /** A JSON value. Two kinds of string are kept apart because their text
      is not modelled: a time, which is written as RFC 3339 text, and a
      store ObjectID, which is written as 24 hexadecimal digits (identified
      here by its insertion serial). */
  datatype Json =
    | JString(s: string)
    | JNumber(n: real)
    | JBool(b: bool)
    | JNull
    | JArray(items: seq<Json>)
    | JObject(fields: map<string, Json>)
    | JTime(seconds: int)
    | JObjectIdHex(serial: nat)

  /** A JSON field the client reads as a list: missing or null, an array,
      or some other value that is not an array. */
  datatype JsonList<+T> = Nullish | Array(items: seq<T>) | NotArray

  /** A request body: JSON that decodes into the request type, or a body
      that does not. */
  datatype Body<+T> = Parsed(value: T) | Malformed

  /** A handler's reply. `Failure` carries `{"error": ...}`; `Failure` with
      details adds `{"details": ...}`; `BindFailure` is the 400 the request
      binder sends for a body that does not parse or validate, with the
      binder's own text; `Success` is a 200 with the given body. */
  datatype Reply =
    | Failure(status: int, error: string)
    | FailureDetails(status: int, error: string, details: string)
    | BindFailure
    | Success(body: map<string, Json>)
  {
    function Status(): int {
      match this
      case Failure(s, _) => s
      case FailureDetails(s, _, _) => s
      case BindFailure => 400
      case Success(_) => 200
    }
  }

  function MessageBody(text: string): map<string, Json> {
    map["message" := JString(text)]
  }

  function Strings(xs: seq<string>): (r: seq<Json>)
    ensures |r| == |xs|
  {
    seq(|xs|, i requires 0 <= i < |xs| => JString(xs[i]))
  }
}
