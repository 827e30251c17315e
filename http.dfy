/** The HTTP response the handler emits: a status code and either no body
    (`response.end()`) or a JSON body (`response.json(value)`). */
module Http {
  import opened Js

  datatype Body = Empty | Json(value: Value)

  datatype Response = Response(status: int, body: Body)

  /** The `{ error: message }` object the handler sends on its own failures. */
  function ErrorObject(message: string): (v: Value)
    ensures v.Obj? && v.fields.Keys == {"error"}
    ensures Get(v, "error") == Str(message)
  {
    Obj(map["error" := Str(message)])
  }
}
