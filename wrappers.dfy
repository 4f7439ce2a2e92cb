/** The two failure-carrying wrappers the model uses: an optional value (a Python
    dictionary entry that may be absent) and a result that is either a value or
    the error the source raises. */
module Wrappers {

  datatype Option<+T> = None | Some(value: T)

  datatype Result<+T, +E> = Ok(value: T) | Err(error: E)
}
