/** The part of net/http the handlers use: status codes, and what a handler writes back. */
module Http {

  const StatusOK := 200
  const StatusBadRequest := 400
  const StatusNotFound := 404
  const StatusMethodNotAllowed := 405
  const StatusUnprocessableEntity := 422
  const StatusInternalServerError := 500

  /** A response body: plain bytes (http.Error's text line, or a forwarded body),
      or a value the handler hands to json.NewEncoder. */
  datatype Body<J> = Plain(text: string) | Json(value: J)

  /** The status code passed to WriteHeader and the body written after it. */
  datatype Response<J> = Response(status: int, body: Body<J>)

  /** http.Error(w, message, code): the status, then the message followed by a newline. */
  function Error<J>(message: string, code: int): Response<J>
  {
    Response(code, Plain(message + "\n"))
  }
}
