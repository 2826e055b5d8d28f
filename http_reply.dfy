/** What an HTTP handler answers: a body, or a status code with an
    optional `{"error": ...}` message. */
module HttpReply {
  const BadRequest: nat := 400
  const Unauthorized: nat := 401
  const Forbidden: nat := 403
  const InternalServerError: nat := 500

  datatype Reply<T> = Success(body: T) | Failure(status: nat, error: ErrorBody)

  /** The JSON error body, when the handler writes one. */
  datatype ErrorBody = NoBody | ErrorText(text: string)
}
