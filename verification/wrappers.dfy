/** Optional values and results, used wherever the endpoint's Python code
    would raise. */
module Wrappers {

  datatype Option<+T> = None | Some(value: T)

  /** A value, or the text of the exception raised instead of producing it. */
  datatype Result<+T> = Ok(value: T) | Raised(message: string)
}
