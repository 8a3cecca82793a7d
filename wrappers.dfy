/** Plain Option and Result datatypes shared by the model. */
module Wrappers {

  /** An optional value: Python's `Optional[...]` and the result of a lookup. */
  datatype Option<+T> = None | Some(value: T)

  /** A value or the error a Python exception would have carried. */
  datatype Result<+R, +E> = Success(value: R) | Failure(error: E)
}
