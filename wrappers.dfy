/** Option and Result values shared by every module: Python's `None`/TypeScript's
    `undefined`, and operations that can raise. */
module Wrappers {

  datatype Option<+T> = None | Some(value: T)

  datatype Result<+T, +E> = Ok(value: T) | Err(error: E)
}
