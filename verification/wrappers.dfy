/** The optional value used for Python's `None` defaults. */
module Wrappers {
  datatype Option<+T> = None | Some(value: T)
  {
    function GetOr(default: T): (r: T)
      ensures Some? ==> r == value
      ensures None? ==> r == default
    {
      match this
      case Some(v) => v
      case None => default
    }
  }
}
