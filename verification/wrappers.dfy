/** Optional values and success/failure results, used for absent fields,
    thrown errors and the model's (possibly empty) reply. */
module Wrappers {

  datatype Option<+T> = None | Some(value: T)

  /** `Err` carries the message of the JavaScript `Error` that was thrown. */
  datatype Result<+T> = Ok(value: T) | Err(message: string)
}
