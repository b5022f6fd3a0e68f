/** The optional-value type used across the model: `None` stands for a
    JavaScript `undefined`, `null` or `NaN` where the source produces one. */
module Wrappers {

  datatype Option<+T> = None | Some(value: T) {

    /** The wrapped value, or `default` when absent. */
    function GetOr(default: T): T {
      match this
      case Some(v) => v
      case None => default
    }
  }
}
