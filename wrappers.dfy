/** Optional values, the model of Swift's `T?`. */
module Wrappers {
  datatype Option<T> = None | Some(value: T)
  {
    /** `a ?? b` */
    function GetOr(default: T): T
    {
      match this
      case None => default
      case Some(v) => v
    }
  }
}
