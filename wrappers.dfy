/** Option and Result values used where the source returns None or raises. */
module Wrappers {

  datatype Option<+T> = None | Some(value: T)

  /** `Failure(message)` stands for a raised exception carrying `message`. */
  datatype Result<+T> = Success(value: T) | Failure(message: string)
}
