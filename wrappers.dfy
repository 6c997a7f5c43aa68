/** Optional values and results with an error side, shared by every module. */
module Wrappers {
  datatype Option<T> = None | Some(value: T)
  {
    /** Python's `x or default` for an optional value that is falsy only when absent. */
    function GetOr(default: T): T {
      if Some? then value else default
    }
  }

  datatype Result<T, E> = Ok(value: T) | Err(error: E)
}
