/** The optional value used wherever the scanner works with "maybe absent" data:
    a missing comment, a missing position, a key absent from parsed configuration. */
module Wrappers {

  datatype Option<+T> = None | Some(value: T) {

    /** The contained value, or `default` when there is none. */
    function GetOr(default: T): T {
      match this
      case Some(v) => v
      case None => default
    }
  }
}
