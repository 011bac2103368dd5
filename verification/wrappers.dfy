/** The two shapes a value of the client can take when it may be missing
    or may have failed. `Option` is a value that may be JavaScript
    `null`/`undefined`. `Result` is a settled promise: `Ok` holds what it
    resolved to, `Err` the `message` of the `Error` it rejected with. */
module Wrappers {

  datatype Option<+T> = None | Some(value: T)

  datatype Result<+T> = Ok(value: T) | Err(message: string)
}
