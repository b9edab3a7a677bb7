/** Failure-carrying datatypes shared by the whole model. */
module Wrappers {

  /** An optional value: Python's `Optional[T]`, with `None` for an absent argument. */
  datatype Option<+T> = None | Some(value: T)

  /** Either a value or an error; used wherever the source returns early with a message. */
  datatype Result<+T, +E> = Success(value: T) | Failure(error: E)
}
