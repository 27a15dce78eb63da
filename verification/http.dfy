/** What a handler or a middleware answers: `res.status(code).json(body)`. */
module Http {
  import opened JsValues

  datatype Payload =
    | Doc(doc: Record)            // one JSON object
    | Docs(docs: seq<Record>)     // a JSON array of objects
    | Error(error: string)        // `{ error: message }`

  datatype Response = Response(status: int, payload: Payload)
}
