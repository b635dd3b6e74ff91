/** Small failure-carrying datatypes shared by the routing model.
    `Option` stands for a reference that may be null, `Result` for a call
    that may end in an exception instead of a value. */
module Wrappers {

  datatype Option<+T> = None | Some(value: T)

  /** The exceptions the modelled code can raise. */
  datatype Exception =
    | ArgumentOutOfRange   // a string index past the end of the string
    | NullReference        // a member access through a null reference

  datatype Result<+R> = Success(value: R) | Failure(error: Exception)
}
