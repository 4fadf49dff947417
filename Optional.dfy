/** The usual Some/None wrapper, for values that may be missing. */
module Optional {
  datatype Option<+T> = None | Some(value: T) {
    function GetOr(default: T): T {
      match this
      case Some(v) => v
      case None => default
    }
  }
}
