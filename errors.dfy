/** The error values the client returns, as categories rather than message text. */
module Errors {
  import opened Base

  /** Why a transport round trip failed before producing a response. */
  datatype TransportError =
    | MarshalFailed        // the request body could not be encoded as JSON
    | RequestBuildFailed   // the HTTP request object could not be built
    | SendFailed           // the request could not be sent (connection error, per-attempt timeout)
    | ReadFailed           // the response body could not be read

  /** The operation named by the prefix of a wrapped or status error
      ("error getting doc: ...", "error creating db: ...", ...). */
  datatype Context =
    | GettingDatabase | CreatingDatabase | CreatingDb
    | CreatingDoc | UnmarshallingCreateDocResponse
    | GettingDoc | UnmarshallingDoc
    | DocCheckFailed | UpdatingDoc
    | GettingDocToDelete | DeletingDoc
    | CreatingDesignDoc
    | CheckingResultVar | GettingView | UnmarshallingResultVar
    | SendingHead | UnexpectedStatus

  datatype Error =
    // sentinel errors of utils.go
    | MissingID | MissingRev | MissingDocumentFields
    | UnsupportedType
    // ErrNotFound of errors.go
    | NotFound
    // errorDBNotFound, an opaque named error
    | DBNotFound
    // plain validation errors
    | InvalidDBName(name: string)
    | InvalidDocParam
    | RowsFieldInvalid | RowFieldsInvalid | DocFieldInvalid
    // causes coming from collaborators
    | Transport(cause: TransportError)
    | JsonFailure
    // "<context>: <code> - <body>"
    | Status(context: Context, code: int, body: Bytes)
    // "<context>: %w"
    | Wrapped(context: Context, inner: Error)

  datatype Result<+T> = Ok(value: T) | Err(error: Error)

  /** The `error` a Go function returns alongside (or instead of) its result: nil on success. */
  function ErrorOf<T>(r: Result<T>): Option<Error>
  {
    if r.Ok? then None else Some(r.error)
  }

  /** The fixed status-code to error table used by GetDoc. */
  const CodeToError: map<int, Error> := map[400 := NotFound]

  /** Go's `errors.Is`: `e` is `target` or wraps it, at any depth. */
  predicate Is(e: Error, target: Error)
  {
    e == target || (e.Wrapped? && Is(e.inner, target))
  }
}
