/** Option and Result, used for values that the source leaves `null` or
  * `undefined` and for the errors it throws or rejects with. */
module Wrappers {
  datatype Option<T> = None | Some(value: T)
  {
    predicate IsSome() { this.Some? }

    function GetOr(default: T): T
    {
      if this.Some? then value else default
    }
  }

  /** `list || []` on a list that may be missing. */
  function Items<T>(xs: Option<seq<T>>): seq<T>
  {
    if xs.Some? then xs.value else []
  }

  datatype Result<T> = Ok(value: T) | Err(error: string)
}
