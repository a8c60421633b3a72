/** An optional value: JavaScript's `T | undefined`. */
module Options {

  datatype Option<+T> = None | Some(value: T) {

    /** `x ?? d` / `x || d` for a value that is never falsy when present. */
    function GetOr(default: T): T {
      match this
      case Some(v) => v
      case None => default
    }
  }
}
