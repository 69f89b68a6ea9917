/** A value that may be absent: a DOM attribute that returns null, an icon
    that an out-of-range slider value leaves alone, a voice that stays unset. */
module Options {
  datatype Option<+T> = None | Some(value: T) {
    /** The wrapped value, or `default` when there is none. */
    function GetOr(default: T): T {
      match this
      case Some(v) => v
      case None => default
    }
  }
}
