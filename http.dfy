/** The parts of `net/http` the handlers use: requests, responses, status codes, `http.Error`. */
module Http {
  import Json

  const StatusOK := 200
  const StatusSeeOther := 303
  const StatusBadRequest := 400
  const StatusInternalServerError := 500

  const MethodPost: string := "POST"

  /** `http.StatusText(http.StatusInternalServerError)`. */
  const InternalServerErrorText: string := "Internal Server Error"

  /**
   * A request as the handlers see it: its method (`verb`), its URL path, its `Content-Type`
   * header ("" when absent) and the outcomes of decoding its body.
   */
  datatype Request = Request(verb: string, path: string, contentType: string, body: Json.Body)

  /**
   * What a handler writes: a status and a body, or a redirect with its status and target.
   */
  datatype Response =
    | Written(status: int, body: string)
    | Redirected(status: int, location: string)

  /** `http.Error(w, msg, code)`: the status and the message followed by a newline. */
  function Error(msg: string, code: int): Response {
    Written(code, msg + "\n")
  }
}
