/** The wrappers used throughout the model: `Option` stands for Python's
    `None`-or-value, `Result` for "returns a value or raises". */
module Wrappers {

  datatype Option<+T> = None | Some(value: T)

  datatype Result<+R, +E> = Success(value: R) | Failure(error: E)
}
