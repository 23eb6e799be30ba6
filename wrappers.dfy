/** The one optional-value datatype the model uses: a field that JavaScript
    would leave `undefined`, `null` or non-finite is `None`. */
module Wrappers {

  datatype Option<+T> = None | Some(value: T) {

    /** The wrapped value, or `default` when there is none. */
    function GetOr(default: T): T {
      match this
      case Some(v) => v
      case None => default
    }
  }
}
