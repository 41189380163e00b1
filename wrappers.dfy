// Optional values: a JavaScript property that may be `undefined`.
module Wrappers {
  datatype Option<T> = None | Some(value: T)
  {
    /** The value, or `default` when absent. */
    function GetOr(default: T): T
    {
      match this
      case None => default
      case Some(v) => v
    }
  }
}
