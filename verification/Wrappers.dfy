/** Results shared by every component of the model. */
module Wrappers {

  /** A value that may be absent. */
  datatype Option<+T> = None | Some(value: T)

  /** A fallible call: errors carry no payload, since no caller branches on one. */
  datatype Result<+T> = Ok(value: T) | Err
}
