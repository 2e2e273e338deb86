/** Error values and the failure-compatible wrappers shared by every module.

    Go reports failures as `error` values built with `fmt.Errorf`; the model keeps the
    structure of those values (a context wrapped around a cause) so that the exact text
    a caller prints or writes to disk can be computed with `Text`.
 */
module Errors {

  datatype Option<+T> = None | Some(value: T)

  /** Kinds of failure of a filesystem call, as Go's `os` package reports them: ENOENT, EACCES,
      EEXIST, EISDIR, ENOTDIR and ENOTEMPTY. */
  datatype IoKind = NotExist | Denied | Conflict | IsDirectory | NotDirectory | NotEmpty

  datatype Error =
    | Io(op: string, path: string, kind: IoKind)   // an *os.PathError
    | Wrapped(context: string, cause: Error)       // fmt.Errorf("<context>: %w", cause)
    | Message(text: string)                        // fmt.Errorf("<text>") with no cause
  {
    /** os.IsNotExist: true of a not-exist error, looking through no wrapping (as the source calls it on raw os errors). */
    predicate IsNotExist() { Io? && kind == NotExist }
  }

  function KindText(k: IoKind): string
  {
    match k
    case NotExist => "no such file or directory"
    case Denied => "permission denied"
    case Conflict => "file exists"
    case IsDirectory => "is a directory"
    case NotDirectory => "not a directory"
    case NotEmpty => "directory not empty"
  }

  /** err.Error(): the text Go prints for an error value. */
  function Text(e: Error): string
  {
    match e
    case Io(op, path, kind) => op + " " + path + ": " + KindText(kind)
    case Wrapped(context, cause) => context + ": " + Text(cause)
    case Message(text) => text
  }

  datatype Result<+T> = Ok(value: T) | Err(error: Error) {
    predicate IsFailure() { Err? }
    function PropagateFailure<U>(): Result<U> requires Err? { Err(error) }
    function Extract(): T requires Ok? { value }
  }

  datatype Outcome = Pass | Fail(error: Error) {
    predicate IsFailure() { Fail? }
    function PropagateFailure(): Outcome requires Fail? { this }
  }
}
