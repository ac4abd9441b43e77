/** Failure-carrying values shared by the listing model: a Go `(value, error)`
    pair whose error is either nil or carries a message. */
module Wrappers {

  /** `Success(v)` is a call that returned `v` with a nil error;
      `Failure(e)` is one whose error is non-nil, `e` being its message. */
  datatype Result<+R, +E> = Success(value: R) | Failure(error: E)
}
