/** The absent-or-present value used throughout the model for JavaScript's
    `null` / `undefined` versus a present value. */
module Optional {

  datatype Option<+T> = None | Some(value: T) {

    /** Returns the wrapped value, or `default` when absent. */
    function GetOr(default: T): T {
      match this
      case Some(v) => v
      case None => default
    }
  }
}
