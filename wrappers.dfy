/** Option and Result, the two failure-carrying datatypes the model uses:
    Option for a JavaScript value that may be `undefined`, Result for an
    asynchronous call that either resolves with a value or rejects. */
module Wrappers {

  datatype Option<+T> = None | Some(value: T)

  datatype Result<+R, +E> = Success(value: R) | Failure(error: E)
}
