/** The optional value used wherever the program reads `undefined`, `null` or
    a missing field. */
module Wrappers {

  datatype Option<T> = None | Some(value: T) {

    /** The `??` operator: the carried value, or `default` when there is none. */
    function GetOr(default: T): T {
      match this
      case Some(v) => v
      case None => default
    }
  }
}
