/** Go's `error` return values and nil-able references, as values. */
module Results {

  /** A Go pointer or function value that may be nil. */
  datatype Option<+T> = None | Some(value: T)

  /** The `error` a Go method returns: nil (`Pass`) or `errors.New(message)`. */
  datatype Outcome = Pass | Fail(message: string)

  /** The state an operation leaves behind, together with the error it returns. */
  datatype Step<S> = Step(state: S, err: Outcome)
}
