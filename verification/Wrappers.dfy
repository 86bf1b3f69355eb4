/** The two result shapes the models share: a value that may be absent, and a
    call that either returns a value or raises an exception with a message. */
module Wrappers {

  datatype Option<+T> = None | Some(value: T)

  datatype Result<+T> = Ok(value: T) | Raise(message: string)
}
