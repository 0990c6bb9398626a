/**
 Java's nullable references, as an option type: `None` stands for `null`.
 */
module Nullable {

  datatype Option<+T> = None | Some(value: T) {

    /** The value, or `default` when this is null. */
    function GetOr(default: T): (r: T)
      ensures Some? ==> r == value
      ensures None? ==> r == default
    {
      match this
      case Some(v) => v
      case None => default
    }
  }
}
