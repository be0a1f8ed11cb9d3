/** Results, errors and response statuses shared by every service and handler.

    The services signal failure by throwing one of four client error classes
    (each carrying an HTTP status code of its own) or by letting an error of
    the PostgreSQL driver escape (which carries no status code). The model
    returns a `Result` instead of throwing. */
module Common {

  datatype Option<+T> = None | Some(value: T)

  /** A failure-compatible result, so that `:-` aborts a method the way an
      early `throw` aborts an async service method. */
  datatype Result<+T, +E> = Success(value: T) | Failure(error: E) {
    predicate IsFailure() { Failure? }

    function PropagateFailure<U>(): Result<U, E>
      requires Failure?
    {
      Failure(error)
    }

    function Extract(): T
      requires Success?
    {
      value
    }
  }

  /** A result without a value: a `verify...` check that passes or throws. */
  datatype Outcome<+E> = Pass | Fail(error: E) {
    predicate IsFailure() { Fail? }

    function PropagateFailure<U>(): Result<U, E>
      requires Fail?
    {
      Failure(error)
    }
  }

  /** The client error classes the services throw. */
  datatype ClientKind = NotFound | Invariant | Authorization | Authentication

  /** SQLSTATE codes of the store errors the model distinguishes:
      23505 (unique_violation), 23503 (foreign_key_violation), 22001
      (string_data_right_truncation: a text too long for its VARCHAR column),
      22003 (numeric_value_out_of_range: a number outside INTEGER) and 22P02
      (invalid_text_representation: a parameter that is not an integer literal). */
  datatype SqlState =
    | UniqueViolation
    | ForeignKeyViolation
    | StringDataRightTruncation
    | NumericValueOutOfRange
    | InvalidTextRepresentation

  /** A thrown error: one of the client error classes, an error of the
      PostgreSQL driver, or a plain `Error`. */
  datatype Error =
    | ClientError(kind: ClientKind, message: string)
    | StoreError(code: SqlState)
    | PlainError(message: string)

  type Fallible<T> = Result<T, Error>
  type Check = Outcome<Error>

  /** A response status: a literal code, or the `statusCode` that the error
      class of the given kind carries (its number is not part of this model). */
  datatype Status = Code(n: nat) | StatusCodeOf(kind: ClientKind)

  /** `error.statusCode || 500`: client errors carry their own status code,
      driver errors and plain errors carry none. */
  function ErrorStatus(e: Error): (s: Status)
    ensures s == Code(500) <==> !e.ClientError?
    ensures e.ClientError? ==> s == StatusCodeOf(e.kind)
  {
    match e
    case ClientError(kind, _) => StatusCodeOf(kind)
    case StoreError(_) => Code(500)
    case PlainError(_) => Code(500)
  }

  /** The message of a `fail` response body: a fixed text, or the `message`
      of the error that was caught. */
  datatype FailMessage = Fixed(text: string) | MessageOf(error: Error)

  /** What a handler answers: a success status with its data, or a failure
      status with its message. The rest of the response body is not modelled. */
  datatype Reply<+T> = Succeeded(status: Status, data: T) | Failed(status: Status, message: FailMessage)

  /** JavaScript truthiness of an optional string: `undefined` and `""` are falsy. */
  predicate Truthy(s: Option<string>) {
    s.Some? && s.value != ""
  }
}
