/** Option and Result: the two failure-carrying shapes the model needs.
    `Option` stands for a JavaScript value that may be `null`/`NaN`;
    `Result` stands for a promise that resolves or rejects. */
module Wrappers {

  datatype Option<+T> = None | Some(value: T)

  datatype Result<+T, +E> = Success(value: T) | Failure(error: E)
}
