/** Optional values and results with an error, used wherever the source has
    `undefined`/`null` or a thrown error that is caught by its caller. */
module Wrappers {

  datatype Option<+T> = None | Some(value: T)

  datatype Result<+T, +E> = Ok(value: T) | Err(error: E)

}
