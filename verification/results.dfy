/** Failure-carrying values used throughout the model. A Go `error` is
    represented by the text its `Error()` method returns, since that text is
    all the plugin ever does with an error: it formats it into a message. */
module Results {

  /** A value that may be absent: a nil pointer, a missing map entry. */
  datatype Option<+T> = None | Some(value: T)

  /** The `(value, error)` pair Go functions return, with exactly one side set. */
  datatype Result<+T> = Success(value: T) | Failure(error: string)

  /** The bare `error` a Go validator returns: nil (Pass) or an error. */
  datatype Outcome = Pass | Fail(error: string)
}
