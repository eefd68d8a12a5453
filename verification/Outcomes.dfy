/** Optional values, and results that either carry a value or were refused with a reason. */
module Outcomes {
  datatype Option<+T> = None | Some(value: T)

  datatype Result<+T, +E> = Ok(value: T) | Refused(error: E)
}
