/**
 * The JSON values that cross the proxy: bodies from the upstream catalogue,
 * decoded token claims, and the replies the server sends.
 */
module JsonValue {

  /** A JSON value; numbers are kept integral (no floating point in this model). */
  datatype Json =
    | Null
    | Bool(b: bool)
    | Number(n: int)
    | Str(s: string)
    | Arr(items: seq<Json>)
    | Obj(fields: seq<(string, Json)>)

  /** What `res.status(status).json(body)` sends. */
  datatype Response = Response(status: nat, body: Json)

  /** The value of the first field named `key` in an object, `Null` when there is none. */
  function Field(value: Json, key: string): Json {
    if value.Obj? then Lookup(value.fields, key) else Null
  }

  function Lookup(fields: seq<(string, Json)>, key: string): Json {
    if fields == [] then Null
    else if fields[0].0 == key then fields[0].1
    else Lookup(fields[1..], key)
  }

  /** `{ error: message }` */
  function ErrorBody(message: string): (body: Json)
    ensures Field(body, "error") == Str(message)
  {
    Obj([("error", Str(message))])
  }

  /** `{ error: message, details: details }` */
  function ErrorBodyWithDetails(message: string, details: string): (body: Json)
    ensures Field(body, "error") == Str(message)
    ensures Field(body, "details") == Str(details)
  {
    var fields := [("error", Str(message)), ("details", Str(details))];
    assert Lookup(fields[1..], "details") == Str(details);
    Obj(fields)
  }

  /** An error envelope: a 4xx or 5xx status whose body names the error in a string field `error`. */
  predicate IsErrorEnvelope(response: Response) {
    400 <= response.status < 600 && Field(response.body, "error").Str?
  }
}
