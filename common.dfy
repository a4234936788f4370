/** Shared helper types. */
module Common {

  /** A value that may be missing: an unset document path, an absent JSON key. */
  datatype Option<+T> = None | Some(value: T) {

    /** The wrapped value, or `default` when there is none (`x || fallback` in the handlers). */
    function GetOr(default: T): T {
      match this
      case Some(v) => v
      case None => default
    }
  }
}
