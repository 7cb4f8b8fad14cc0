/** An optional value, used where the driver may have nothing to report. */
module Options {

  datatype Option<T> = None | Some(value: T) {

    /** The value held, or `default` when there is none. */
    function GetOr(default: T): T {
      match this
      case Some(v) => v
      case None => default
    }
  }
}
