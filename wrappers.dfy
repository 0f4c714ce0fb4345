/** The Option type used for Go's nullable values (sql.NullString, uuid.NullUUID,
    sql.NullTime, ...) and for lookups that may find nothing. */
module Wrappers {

  datatype Option<+T> = None | Some(value: T) {

    /** The value, or the given default when absent (Go's zero value of a Null* field). */
    function GetOr(default: T): T {
      match this
      case Some(v) => v
      case None => default
    }
  }

  /** A Go `(value, error)` pair: either the value or the error. */
  datatype Result<+T, +E> = Success(value: T) | Failure(error: E)

  /** What a handler sends back: `respondWithJSON` with a status code and a body, or
      `respondWithError` with a status code and a message. */
  datatype Response<+T> = Respond(code: int, body: T) | RespondError(code: int, message: string)
}
