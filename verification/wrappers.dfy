/** Option and Result, used for optional arguments (`undefined` in the source) and for
    operations that either produce a value or fail. */
module Wrappers {

  /** An optional value; `None` stands for an omitted (`undefined`) argument. */
  datatype Option<+T> = None | Some(value: T)

  /** The outcome of an operation that can fail. */
  datatype Result<+T, +E> = Ok(value: T) | Err(error: E)
}
