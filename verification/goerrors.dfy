/**
 Go error values as the note service builds and inspects them.

 Go compares sentinel errors (package-level `errors.New` values) by identity and
 finds them inside wrapped errors with `errors.Is`; it finds typed errors such as
 `*azcore.ResponseError` with `errors.As`. Both become recursive predicates over a
 closed error datatype here.
 */
module GoErrors {
  import opened Wrappers

  /** Every package-level sentinel the core defines or inspects. */
  datatype Sentinel =
    // db/errors.go
    | DbLoggerRequired | DbClientRequired | DbClientConnection | DbInternal
    | DbInvalidInput | DbNotFound | DbAlreadyExists | DbInvalidId
    // notes/errors.go
    | SvcDbRequired | SvcLoggerRequired | SvcService
    | SvcInvalidInput | SvcNotFound | SvcAlreadyExists
    // server/errors.go (HttpIdRequired is the `ErrIDRequired` the handlers use)
    | HttpInvalidRequest | HttpMalformedRequestBody | HttpEmptyRequestBody
    | HttpForbidden | HttpCategoryRequired | HttpIdRequired
    // package io
    | IoEof | IoUnexpectedEof

  /** The text each sentinel was created with. */
  function SentinelText(s: Sentinel): string
  {
    match s
    case DbLoggerRequired => "logger is not provided"
    case DbClientRequired => "database client is not provided"
    case DbClientConnection => "connection to the database failed"
    case DbInternal => "internal database error"
    case DbInvalidInput => "invalid input"
    case DbNotFound => "not found"
    case DbAlreadyExists => "already exists"
    case DbInvalidId => "invalid ID"
    case SvcDbRequired => "database is not provided"
    case SvcLoggerRequired => "logger is not provided"
    case SvcService => "service error"
    case SvcInvalidInput => "invalid input"
    case SvcNotFound => "not found"
    case SvcAlreadyExists => "already exists"
    case HttpInvalidRequest => "invalid request"
    case HttpMalformedRequestBody => "malformed request body"
    case HttpEmptyRequestBody => "empty request body"
    case HttpForbidden => "forbidden"
    case HttpCategoryRequired => "category is required"
    case HttpIdRequired => "id is required"
    case IoEof => "EOF"
    case IoUnexpectedEof => "unexpected EOF"
  }

  /** A Go `error` value (never nil; a possibly-nil error is an `Option<Error>`). */
  datatype Error =
    | Named(sentinel: Sentinel)
      /** an `errors.New` made on the spot: it has no identity anyone can match */
    | Fresh(text: string)
      /** an `*azcore.ResponseError` carrying the backend's HTTP status */
    | Response(status: int, text: string)
      /** a `*json.SyntaxError` */
    | Syntax(text: string)
      /** `fmt.Errorf` with one `%w`: its own text, and the cause it unwraps to */
    | Wrap(text: string, cause: Error)
      /** `fmt.Errorf("%w: %w", first, second)` */
    | Join(first: Error, second: Error)

  /** `err.Error()`. */
  function Message(e: Error): string
  {
    match e
    case Named(s) => SentinelText(s)
    case Fresh(t) => t
    case Response(_, t) => t
    case Syntax(t) => t
    case Wrap(t, _) => t
    case Join(a, b) => Message(a) + ": " + Message(b)
  }

  /** `errors.Is(e, target)` for a sentinel target: searches the whole wrap tree. */
  predicate Is(e: Error, target: Sentinel)
  {
    match e
    case Named(s) => s == target
    case Wrap(_, c) => Is(c, target)
    case Join(a, b) => Is(a, target) || Is(b, target)
    case _ => false
  }

  /**
   `errors.As(e, &responseError)`: the status of the first `*azcore.ResponseError`
   met in a depth-first walk of the wrap tree, if any.
   */
  function AsResponse(e: Error): Option<int>
  {
    match e
    case Response(status, _) => Some(status)
    case Wrap(_, c) => AsResponse(c)
    case Join(a, b) => if AsResponse(a).Some? then AsResponse(a) else AsResponse(b)
    case _ => None
  }

  /** `errors.As(e, &syntaxError)` for a `*json.SyntaxError`. */
  predicate AsSyntax(e: Error)
  {
    match e
    case Syntax(_) => true
    case Wrap(_, c) => AsSyntax(c)
    case Join(a, b) => AsSyntax(a) || AsSyntax(b)
    case _ => false
  }

  /** An error that wraps none of the program's sentinels, such as a raw backend or transport failure. */
  predicate Foreign(e: Error)
  {
    forall t: Sentinel :: !Is(e, t)
  }

  /** Go's `(value, error)` return pair; `err == None` is a nil error. */
  datatype Ret<T> = Ret(value: T, err: Option<Error>)
}
