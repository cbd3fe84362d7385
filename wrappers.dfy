/** Python's `None`-or-value results. */
module Wrappers {

  datatype Option<T> = None | Some(value: T) {

    /** `x or default` for an optional value whose present values are all truthy. */
    function GetOr(default: T): T
    {
      match this
      case Some(v) => v
      case None => default
    }
  }
}
