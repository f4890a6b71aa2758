/** Option and Result values used for the source's `None` returns and raised exceptions. */
module Wrappers {

  datatype Option<+T> = None | Some(value: T)

  /** `Err` stands for an exception carrying the message `str(e)` would give. */
  datatype Result<+T, +E> = Ok(value: T) | Err(error: E)

  /** A remote step that either completes or raises with a message
      (an SSH connect, an SFTP write). */
  datatype Attempt = Succeeds | Fails(message: string)
}
