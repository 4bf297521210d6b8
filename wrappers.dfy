/** Option and Result, the two wrapper types the whole model uses for absent values and error returns. */
module Wrappers {

  datatype Option<+T> = None | Some(value: T)
  {
    /** Rust's `unwrap_or`. */
    function GetOr(default: T): (r: T)
      ensures Some? ==> r == value
      ensures None? ==> r == default
    {
      if Some? then value else default
    }
  }

  datatype Result<+T, +E> = Ok(value: T) | Err(error: E)

}
