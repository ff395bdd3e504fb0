/** The optional value used wherever the source returns `None` or a falsy
    result: a failed lookup, an unavailable external service, an absent key. */
module Wrappers {

  datatype Option<+T> = None | Some(value: T) {

    /** The wrapped value, or `default` when there is none. */
    function GetOr(default: T): T {
      match this
      case Some(v) => v
      case None => default
    }
  }
}
