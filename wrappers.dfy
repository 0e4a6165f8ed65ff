/** Optional values and the `{success, data, error}` result shape the services return. */
module Wrappers {

  /** A value that may be absent (JavaScript `null`/`undefined`). */
  datatype Option<+T> = None | Some(value: T)

  /** `{ success: true, data }` or `{ success: false, error }`. */
  datatype Result<+T> = Ok(value: T) | Err(error: string)
}
