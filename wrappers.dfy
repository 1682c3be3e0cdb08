/** Option and Result, used for the source's `Option` returns and for the
    one recoverable error path (a Lisp `error` signal). */
module Wrappers {

  datatype Option<+T> = None | Some(value: T)

  datatype Result<+T, +E> = Ok(value: T) | Err(error: E)
}
